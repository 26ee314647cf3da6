/** Which members are connected: only a registration connects one, and a finished removal leaves none. */
module V2Presence {
  import opened Wrappers
  import opened Collections
  import opened Sfu
  import opened V2State
  import opened V2Steps
  import opened V2Moves
  import opened V2RoomSteps

  ghost predicate Present(a: Option<Room>, c: ClientId) {
    a.Some? && c in a.value.members
  }

  ghost predicate Online(a: Option<Room>, c: ClientId) {
    a.Some? && c in a.value.members && a.value.members[c].registered
  }

  lemma MoveOnline(a: Option<Room>, m: Move, c: ClientId)
    requires Enabled(a, m) && Online(Moved(a, m), c)
    ensures Online(a, c) || m == MemberRegistered(c)
  {
    hide Armed, DowngradeEligible, SortedSeq, CommittedRoom, DowngradedRoom, Survivors;
    if m.LeaveEnded? {
      ArmedMembers(m.dwell, WithoutMember(a.value.(pendingLeave := None), m.client), m.now);
    } else if m.UpgradeCommitted? {
      CommittedOnline(AdvancedRoom(a.value, m.client), c);
    } else if m.RoomDowngraded? {
      DowngradedOnline(a.value, c);
    } else if m.Departed? {
      SurvivorOnline(a.value.(members := a.value.members - m.gone), c);
    }
  }

  lemma CommittedOnline(room: Room, c: ClientId)
    ensures Online(Some(CommittedRoom(room)), c) <==> Online(Some(room), c)
  {
  }

  lemma DowngradedOnline(room: Room, c: ClientId)
    requires DowngradeEligible(room)
    ensures Online(Some(DowngradedRoom(room)), c) <==> Online(Some(room), c)
  {
  }

  lemma SurvivorOnline(room: Room, c: ClientId)
    ensures Online(Some(Survivors(room)), c) <==> Online(Some(room), c)
  {
  }

  lemma {:induction false} TrailOnline(a: Option<Room>, trail: seq<Move>, b: Option<Room>, c: ClientId)
    requires Follows(a, trail, b) && Online(b, c)
    ensures Online(a, c) || MemberRegistered(c) in trail
    decreases |trail|
  {
    hide Enabled, Moved, Online;
    if trail != [] {
      TrailOnline(Moved(a, trail[0]), trail[1..], b, c);
      assert trail[0] in trail && forall m :: m in trail[1..] ==> m in trail;
      if Online(Moved(a, trail[0]), c) { MoveOnline(a, trail[0], c); }
    }
  }

  /** A member is connected after a step only if it was before, or has just registered. */
  lemma StepOnline(t: Table, step: Step, r: RoomId, c: ClientId)
    requires RoomsOk(t, false) && ProperOrders(t, step) && Online(RoomAt(Apply(t, step), r), c)
    ensures Online(RoomAt(t, r), c) || (step.RegisterStep? && step.client == c)
  {
    hide RoomsOk, ProperOrders, Apply, Online, Follows, AllMade;
    var trail := StepTrail(t, step, r);
    TrailOnline(RoomAt(t, r), trail, RoomAt(Apply(t, step), r), c);
    if MemberRegistered(c) in trail { RegisteredBy(step, trail, c); }
  }

  lemma RegisteredBy(step: Step, trail: seq<Move>, c: ClientId)
    requires AllMade(step, trail) && MemberRegistered(c) in trail
    ensures step.RegisterStep? && step.client == c
  {
  }

  /** A registration that fails connects nobody, and one that succeeds only its own client. */
  lemma RegisterOnline(t: Table, r: RoomId, c: ClientId, token: string, order: seq<ClientId>, s: RoomId, d: ClientId)
    requires Online(RoomAt(Register(t, r, c, token, order).0, s), d)
    ensures Online(RoomAt(t, s), d) || (s == r && d == c && Register(t, r, c, token, order).1.Ok?)
  {
    hide QueuedFor;
  }

  lemma DisconnectedIsOffline(t: Table, now: Instant, r: RoomId, c: ClientId)
    ensures !Online(RoomAt(Deregister(t, now, r, c), r), c)
  {
    hide LeaveOrWait, SetDeadline;
    if r in t.rooms && c in t.rooms[r].members && t.rooms[r].members[c].registered {
      var t1 := PutRoom(t, r, WithMember(t.rooms[r], c, t.rooms[r].members[c].(registered := false)));
      StillOffline(t1, now, r, c);
    }
  }

  lemma StillOffline(t: Table, now: Instant, r: RoomId, c: ClientId)
    requires !Online(RoomAt(t, r), c)
    ensures !Online(RoomAt(LeaveOrWait(t, now, r, c), r), c) && !Online(RoomAt(SetDeadline(t, r, c, now + t.grace), r), c)
  {
  }

  /** A removal that is complete has taken its member out of the room. */
  lemma RemovedGone(t: Table, ticket: Ticket, r: RoomId, c: ClientId, token: string)
    requires var done := Remove(t, ticket, r, c, token).1; done.Ok? && done.value.Removed?
    ensures !Present(RoomAt(Remove(t, ticket, r, c, token).0, r), c)
  {
    hide Survivors, PromotionOf, IssueSfuLeave, PutOrReap;
    var rest := WithoutMember(t.rooms[r], c);
    PutOrReapAt(t, r, rest);
    PutOrReapAt(t, r, Survivors(rest));
    SurvivorKeys(rest);
  }

  lemma SurvivorKeys(room: Room)
    ensures Survivors(room).members.Keys == room.members.Keys
  {
  }

  /** Every finished removal that is announced is of a member that is gone. */
  ghost predicate RemovalsGone(t: Table) {
    forall a :: a in t.actions && a.RemovalCompleted? && a.removal.Ok? ==> !Present(RoomAt(t, a.room), a.client)
  }

  // ---- operations announce no removals ----

  ghost predicate NoRemovals(actions: seq<Action>) {
    forall a :: a in actions ==> !(a.RemovalCompleted? && a.removal.Ok?)
  }

  /** Everything queued since `t` is something other than a finished removal. */
  ghost predicate SaysNothing(t: Table, t': Table) {
    NoRemovals(t.actions) ==> NoRemovals(t'.actions)
  }

  lemma CleanupSays(t: Table, r: RoomId, i: InstanceId, clients: seq<ClientId>, epoch: nat)
    ensures SaysNothing(t, Cleanup(t, r, i, clients, epoch).0)
  {
    hide Cleanup;
    CleanupKeeps(t0 => SaysNothing(t, t0), t, r, i, clients, epoch);
  }

  lemma ResyncSays(t: Table, i: InstanceId, connection: ConnectionId, rooms: seq<RoomId>, commands: seq<RequestId>)
    ensures SaysNothing(t, ResyncRooms(t, i, connection, rooms, commands))
  {
    hide ResyncRooms, Replay, Projection;
    ResyncKeeps(t0 => SaysNothing(t, t0), t, i, connection, rooms, commands);
  }

  lemma RegisterWorkerSays(t: Table, connection: ConnectionId, i: InstanceId, request: RequestId, capacity: Capacity,
                           rooms: seq<RoomId>, commands: seq<RequestId>)
    ensures SaysNothing(t, RegisterWorker(t, connection, i, request, capacity, rooms, commands))
  {
    hide ResyncRooms;
    ResyncSays(OpenSession(t, connection, i, request, capacity), i, connection, rooms, commands);
  }

  lemma {:induction false} PushCommandsSays(t: Table, connection: ConnectionId, commands: seq<Command>)
    ensures SaysNothing(t, PushCommands(t, connection, commands))
    decreases |commands|
  {
    if commands != [] {
      PushCommandsSays(Push(t, SfuOut(CommandOut(connection, commands[0]))), connection, commands[1..]);
    }
  }

  lemma IssueSfuLeaveSays(t: Table, r: RoomId, c: ClientId, ticket: Option<Ticket>, reason: LeaveReason)
    ensures var left := IssueSfuLeave(t, r, c, ticket, reason); left.Some? ==> SaysNothing(t, left.value)
  {
  }

  lemma AbortSays(t: Table, r: RoomId, reason: string)
    ensures SaysNothing(t, AbortUpgrade(t, r, reason).0)
  {
    hide Cleanup, WithoutMember;
    if r in t.rooms && t.rooms[r].upgrade.Some? && t.rooms[r].instance.Some? {
      var room := t.rooms[r];
      var t1 := PutRoom(t, r, WithoutMember(room, room.upgrade.value.joining)
                                .(upgrade := None, mode := P2p, instance := None));
      CleanupSays(Unassign(t1, r, room.instance.value, 3), r, room.instance.value, room.upgrade.value.joined,
                  room.assignmentEpoch);
    }
  }

  lemma DowngradeSays(t: Table, r: RoomId, order: seq<ClientId>)
    requires r in t.rooms && t.rooms[r].members != map[]
    ensures SaysNothing(t, CommitDowngrade(t, r, order))
  {
    hide DowngradedRoom, Cleanup;
    var room := t.rooms[r];
    if room.instance.Some? {
      CleanupSays(Unassign(PutRoom(t, r, DowngradedRoom(room)), r, room.instance.value, |room.members|), r,
                  room.instance.value, order, room.assignmentEpoch);
    }
  }

  lemma {:induction false} ExpireRoomsSay(t: Table, rooms: seq<RoomId>)
    ensures SaysNothing(t, ExpireRooms(t, rooms))
    decreases |rooms|
  {
    hide ExpireRoom, NoRemovals;
    if rooms != [] {
      ExpireRoomSays(t, rooms[0]);
      ExpireRoomsSay(ExpireRoom(t, rooms[0]), rooms[1..]);
    }
  }

  lemma ExpireRoomSays(t: Table, r: RoomId)
    ensures SaysNothing(t, ExpireRoom(t, r))
  {
    hide AbortUpgrade;
    AbortSays(t, r, "WORKER_UNAVAILABLE");
  }

  lemma {:induction false} ExpireWorkersSay(t: Table, workers: seq<InstanceId>, hosted: map<InstanceId, seq<RoomId>>)
    ensures SaysNothing(t, ExpireWorkers(t, workers, hosted))
    decreases |workers|
  {
    hide ExpireRooms, NoRemovals, CommandsOf;
    if workers != [] {
      ExpireRoomsSay(t, Listing(hosted, workers[0]));
      ExpireWorkersSay(ExpireWorker(t, workers[0], Listing(hosted, workers[0])), workers[1..], hosted);
    }
  }

  lemma SweepRoomSays(t: Table, now: Instant, r: RoomId, order: seq<ClientId>)
    ensures SaysNothing(t, SweepRoom(t, now, r, order).0)
  {
    hide CommitDowngrade, IssueSfuLeave, FirstDue, Survivors, PromotionOf, DueMembers, NoRemovals;
    if r in t.rooms {
      if DowngradeEligible(t.rooms[r]) { DowngradeSays(t, r, order); }
      hide DowngradeEligible;
      var c := FirstDue(t.rooms[r].members, order, now);
      if c.Some? { IssueSfuLeaveSays(t, r, c.value, None, Disconnected); }
    }
  }

  lemma {:induction false} SweepRoomsSay(t: Table, now: Instant, rooms: seq<RoomId>, members: map<RoomId, seq<ClientId>>)
    ensures SaysNothing(t, SweepRooms(t, now, rooms, members).0)
    decreases |rooms|
  {
    hide SweepRoom, NoRemovals;
    if rooms != [] {
      SweepRoomSays(t, now, rooms[0], Listing(members, rooms[0]));
      SweepRoomsSay(SweepRoom(t, now, rooms[0], Listing(members, rooms[0])).0, now, rooms[1..], members);
    }
  }

  lemma TimeoutSays(t: Table, now: Instant, s: Schedule)
    ensures SaysNothing(t, HandleTimeout(t, now, s).0)
  {
    hide ExpireWorkers, SweepRooms, NoRemovals;
    ExpireWorkersSay(t, s.workers, s.hosted);
    SweepRoomsSay(ExpireWorkers(t, s.workers, s.hosted), now, s.rooms, s.members);
  }

  lemma IssueNextSays(t: Table, r: RoomId)
    ensures IssueNextUpgradeJoin(t, r).Ok? ==> SaysNothing(t, IssueNextUpgradeJoin(t, r).value)
  {
  }

  lemma StartUpgradeSays(t: Table, ticket: Ticket, now: Instant, r: RoomId, c: ClientId, token: string, i: InstanceId)
    requires r in t.rooms && i in t.workers
    ensures SaysNothing(t, StartUpgrade(t, ticket, now, r, c, token, i).0)
  {
    var begun := BeginUpgrade(t, ticket, now, r, c, token, i);
    IssueNextSays(begun, r);
    assert begun.actions == t.actions by { hide UpgradingRoom, FreshLifecycles; }
    hide IssueNextUpgradeJoin, BeginUpgrade;
  }

  lemma AdmitSays(t: Table, ticket: Ticket, now: Instant, r: RoomId, c: ClientId, token: string)
    ensures SaysNothing(t, Admit(t, ticket, now, r, c, token).0)
  {
    hide StartUpgrade, LessLoaded, Selectable, NoRemovals, AdmitToSfu;
    if r in t.rooms && SelectWorker(t, 3).Some? {
      StartUpgradeSays(t, ticket, now, r, c, token, SelectWorker(t, 3).value);
    }
    if r in t.rooms { AdmitToSfuSays(t, ticket, now, r, c, token); }
  }

  lemma AdmitToSfuSays(t: Table, ticket: Ticket, now: Instant, r: RoomId, c: ClientId, token: string)
    requires r in t.rooms
    ensures SaysNothing(t, AdmitToSfu(t, ticket, now, r, c, token).0)
  {
  }

  lemma DeregisterSays(t: Table, now: Instant, r: RoomId, c: ClientId)
    ensures SaysNothing(t, Deregister(t, now, r, c))
  {
    hide IssueSfuLeave, NoRemovals;
    if r in t.rooms && c in t.rooms[r].members {
      var t1 := PutRoom(t, r, WithMember(t.rooms[r], c, t.rooms[r].members[c].(registered := false)));
      IssueSfuLeaveSays(t1, r, c, None, Disconnected);
    }
  }

  lemma SendSays(t: Table, r: RoomId, c: ClientId, epoch: nat, message: string, order: seq<ClientId>)
    ensures SaysNothing(t, Send(t, r, c, epoch, message, order).0)
  {
  }

  lemma RemoveSays(t: Table, ticket: Ticket, r: RoomId, c: ClientId, token: string)
    ensures SaysNothing(t, Remove(t, ticket, r, c, token).0)
  {
    hide IssueSfuLeave, Survivors, PromotionOf, NoRemovals;
    IssueSfuLeaveSays(t, r, c, Some(ticket), User);
  }

  lemma EventSays(t: Table, connection: ConnectionId, i: InstanceId, event: Event)
    ensures SaysNothing(t, HandleEvent(t, connection, i, event).0)
  {
    hide Remember, FreshEvent;
    if i in t.workers && t.workers[i].connection == Some(connection) && event.id != 0
       && event.id !in t.workers[i].seen {
      FreshEventSays(PutWorker(t, i, Remember(t.workers[i], event.id)), connection, i, event);
    }
  }

  lemma FreshEventSays(t: Table, connection: ConnectionId, i: InstanceId, event: Event)
    requires i in t.workers
    ensures SaysNothing(t, FreshEvent(t, connection, i, event).0)
  {
  }

  lemma RegisterSays(t: Table, r: RoomId, c: ClientId, token: string, order: seq<ClientId>)
    ensures SaysNothing(t, Register(t, r, c, token, order).0)
  {
    hide RegisteredMembers, QueuedFor;
  }

  // ---- results ----

  lemma UpgradeAckSays(t: Table, p: PendingCommand)
    requires p.UpgradeJoin?
    ensures SaysNothing(t, UpgradeAck(t, p).0)
  {
    hide IssueNextUpgradeJoin, CommitUpgrade, AdvancedRoom, NoRemovals;
    if p.join.room in t.rooms && t.rooms[p.join.room].upgrade.Some? {
      var t1 := PutRoom(t, p.join.room, AdvancedRoom(t.rooms[p.join.room], p.join.client));
      IssueNextSays(t1, p.join.room);
      CommitSays(t1, p.join.room);
    }
  }

  lemma CommitSays(t: Table, r: RoomId)
    ensures SaysNothing(t, CommitUpgrade(t, r).0)
  {
    hide CommittedRoom;
  }

  lemma SfuJoinSays(t: Table, i: InstanceId, p: PendingCommand, result: CommandResult)
    requires p.SfuJoin?
    ensures SaysNothing(t, SfuJoinResult(t, i, p, result).0)
  {
    hide Joined, WithoutMember, ErrorReason;
  }

  /** A Leave that succeeded announces the removal of a member that has just gone. */
  lemma SfuLeaveSays(t: Table, i: InstanceId, p: PendingCommand, result: CommandResult, now: Instant)
    requires p.SfuLeave? && NoRemovals(t.actions)
    ensures RemovalsGone(SfuLeaveResult(t, i, p, result, now).0)
    ensures SfuLeaveResult(t, i, p, result, now).1.Err? ==> NoRemovals(SfuLeaveResult(t, i, p, result, now).0.actions)
  {
    if p.room in t.rooms && t.rooms[p.room].pendingLeave.Some? {
      LeaveResultRooms(t, i, p, result, now);
      ArmedMembers(t.dwell, WithoutMember(t.rooms[p.room].(pendingLeave := None), p.client), now);
      SfuLeaveQueue(t, i, p, result, now);
      hide SfuLeaveResult, Armed, Left;
      var t' := SfuLeaveResult(t, i, p, result, now).0;
      forall a | a in t'.actions && a.RemovalCompleted? && a.removal.Ok? ensures !Present(RoomAt(t', a.room), a.client) {
        assert a !in t.actions;
      }
    }
  }

  lemma SfuLeaveQueue(t: Table, i: InstanceId, p: PendingCommand, result: CommandResult, now: Instant)
    requires p.SfuLeave? && p.room in t.rooms && t.rooms[p.room].pendingLeave.Some?
    ensures var left := p.instance == i && Left(result, p);
            var t' := SfuLeaveResult(t, i, p, result, now).0;
            forall a :: a in t'.actions ==>
              a in t.actions || (a.RemovalCompleted? && a.room == p.room && a.client == p.client && (a.removal.Ok? ==> left))
  {
    hide Left, Armed, ErrorReason, DebitWorker, WithoutMember, PutOrReap;
    var rest := WithoutMember(t.rooms[p.room].(pendingLeave := None), p.client);
    DebitKeeps(t, i, p.room, rest.members == map[]);
    ReapSays(PushAll(DebitWorker(t, i, p.room, rest.members == map[]),
                     RemovalNotice(t.rooms[p.room].pendingLeave.value, p.room, p.client, Ok(()))), p.room,
             Armed(t.dwell, rest, now));
  }

  lemma ReapSays(t: Table, r: RoomId, room: Room)
    ensures PutOrReap(t, r, room).actions == t.actions
  {
  }

  lemma SyncSays(t: Table, connection: ConnectionId, i: InstanceId, p: PendingCommand, result: CommandResult)
    requires p.SyncPending?
    ensures SaysNothing(t, SyncResult(t, connection, i, p, result).0)
  {
    hide PushCommands;
    PushCommandsSays(t, connection, p.replay);
  }

  lemma NoneGone(t: Table)
    requires NoRemovals(t.actions)
    ensures RemovalsGone(t)
  {
  }

  lemma ResultSays(t: Table, connection: ConnectionId, i: InstanceId, result: CommandResult, now: Instant)
    requires NoRemovals(t.actions)
    ensures RemovalsGone(HandleResult(t, connection, i, result, now).0)
    ensures HandleResult(t, connection, i, result, now).1.Err? ==>
              NoRemovals(HandleResult(t, connection, i, result, now).0.actions)
  {
    hide SyncResult, UpgradeAck, AbortUpgrade, SfuJoinResult, SfuLeaveResult, NoRemovals, RemovalsGone;
    NoneGone(t);
    if result.id in t.pending {
      var p := t.pending[result.id];
      var t1 := Forget(t, {result.id});
      assert NoRemovals(t1.actions);
      NoneGone(t1);
      match p {
        case SyncPending(_, _, _, _) =>
          SyncSays(t1, connection, i, p, result);
          NoneGone(SyncResult(t1, connection, i, p, result).0);
        case UpgradeJoin(_, _) =>
          UpgradeAckSays(t1, p);
          AbortSays(t1, p.join.room, ErrorReason(result));
          NoneGone(UpgradeJoinResult(t1, i, p, result).0);
        case SfuJoin(_, _) =>
          SfuJoinSays(t1, i, p, result);
          NoneGone(SfuJoinResult(t1, i, p, result).0);
        case SfuLeave(_, _, _, _, _) => SfuLeaveSays(t1, i, p, result, now);
        case SignalPending =>
        case CleanupPending =>
      }
    }
  }

  /** Every step but a result announces no removal. */
  lemma StepSays(t: Table, step: Step)
    requires !step.ResultStep? && NoRemovals(t.actions)
    ensures NoRemovals(Apply(t, step).actions)
  {
    hide Admit, Register, Deregister, Send, Remove, RegisterWorker, HandleEvent, HandleTimeout, NoRemovals;
    match step {
      case AdmitStep(ticket, now, r, c, token) => AdmitSays(t, ticket, now, r, c, token);
      case RegisterStep(r, c, token, order) => RegisterSays(t, r, c, token, order);
      case DeregisterStep(now, r, c) => DeregisterSays(t, now, r, c);
      case SendStep(r, c, epoch, message, order) => SendSays(t, r, c, epoch, message, order);
      case RemoveStep(ticket, r, c, token) => RemoveSays(t, ticket, r, c, token);
      case WorkerStep(connection, i, request, capacity, rooms, commands) =>
        RegisterWorkerSays(t, connection, i, request, capacity, rooms, commands);
      case EventStep(connection, i, event) => EventSays(t, connection, i, event);
      case LostStep(_, _, _) =>
      case TimeoutStep(now, s) => TimeoutSays(t, now, s);
      case PollStep => PollSays(t);
    }
  }

  lemma PollSays(t: Table)
    ensures NoRemovals(t.actions) ==> NoRemovals(PollAction(t).actions)
    ensures RemovalsGone(t) ==> RemovalsGone(PollAction(t))
  {
    if t.actions != [] {
      assert forall a :: a in t.actions[1..] ==> a in t.actions;
    }
  }
}
