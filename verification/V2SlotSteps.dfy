/** Every operation keeps rooms, commands in flight and hosting workers in step. */
module V2SlotSteps {
  import opened Wrappers
  import opened Collections
  import opened Sfu
  import opened V2State
  import opened V2Steps
  import opened V2Rooms
  import opened V2Moves
  import opened V2RoomSteps
  import opened V2Commands
  import opened V2Slots

  ghost predicate SlotAt(t: Table, s: RoomId, acks: Acks, e2: bool) {
    SlotOk(s, ViewOf(t, s), acks, e2)
  }

  // ---- views under the shared parts of the operations ----

  /** A change that leaves the commands and the hosts of `s` alone. */
  lemma Reroomed(t: Table, t': Table, s: RoomId)
    requires t'.pending == t.pending && Hosts(t'.workers, s) == Hosts(t.workers, s)
    ensures ViewOf(t', s) == ViewOf(t, s).(room := RoomAt(t', s))
  {
  }

  lemma SideIssueView(t: Table, i: InstanceId, connection: ConnectionId, kind: CommandKind, p: PendingCommand, s: RoomId)
    requires CommandsOk(t) && (p.SyncPending? || p.SignalPending? || p.CleanupPending?)
    ensures ViewOf(IssueCommand(t, i, connection, kind, p), s) == ViewOf(t, s)
  {
    hide ViewOf, IssueCommand, CommandsOk;
    FreshRequest(t);
    IssueView(t, i, connection, kind, p, s);
  }

  lemma CleanupView(t: Table, r: RoomId, i: InstanceId, clients: seq<ClientId>, epoch: nat, s: RoomId)
    requires CommandsOk(t)
    ensures var t' := Cleanup(t, r, i, clients, epoch).0;
            ViewOf(t', s) == ViewOf(t, s) && t'.workers == t.workers
  {
    hide CommandsOk, EmitsFresh, NoPlans, ViewOf, Cleanup, IssueCommand;
    forall t0: Table, connection, leave: LeaveMember | CommandsOk(t0) && ViewOf(t0, s) == ViewOf(t, s)
      ensures var t1 := IssueCommand(t0, i, connection, LeaveCommand(leave), CleanupPending);
              CommandsOk(t1) && ViewOf(t1, s) == ViewOf(t, s)
    {
      SideIssueView(t0, i, connection, LeaveCommand(leave), CleanupPending, s);
      IssueLog(t0, i, connection, LeaveCommand(leave), CleanupPending);
    }
    CleanupKeeps(t0 => CommandsOk(t0) && ViewOf(t0, s) == ViewOf(t, s), t, r, i, clients, epoch);
    CleanupFrame(t, r, i, clients, epoch);
  }

  /** The Cleanup Leaves go out without error when every client is a member. */
  lemma {:induction false} CleanupLeavesSucceed(t: Table, r: RoomId, i: InstanceId, connection: ConnectionId,
                                                clients: seq<ClientId>, epoch: nat)
    requires r in t.rooms && forall c :: c in clients ==> c in t.rooms[r].members
    ensures CleanupLeaves(t, r, i, connection, clients, epoch).1.Ok?
    decreases |clients|
  {
    if clients != [] {
      assert clients[0] in clients;
      var leave := LeaveMember(r, clients[0], t.rooms[r].members[clients[0]].lifecycle, epoch, RoomClosed);
      CleanupLeavesSucceed(IssueCommand(t, i, connection, LeaveCommand(leave), CleanupPending), r, i, connection,
                           clients[1..], epoch);
    }
  }

  lemma CleanupSucceeds(t: Table, r: RoomId, i: InstanceId, clients: seq<ClientId>, epoch: nat)
    requires r in t.rooms && forall c :: c in clients ==> c in t.rooms[r].members
    ensures Cleanup(t, r, i, clients, epoch).1.Ok?
  {
    if Connection(t, i).Some? {
      CleanupLeavesSucceed(t, r, i, Connection(t, i).value, clients, epoch);
    }
  }

  lemma UnassignHosts(t: Table, r: RoomId, i: InstanceId, clients: nat, s: RoomId)
    ensures Hosts(Unassign(t, r, i, clients).workers, s)
            == if s == r then Hosts(t.workers, s) - {i} else Hosts(t.workers, s)
  {
  }

  // ---- admission ----

  lemma CreateSlots(t: Table, now: Instant, r: RoomId, c: ClientId, token: string, s: RoomId, acks: Acks, e2: bool)
    requires SlotAt(t, s, acks, e2) && r !in t.rooms
    ensures SlotAt(CreateRoom(t, now, r, c, token).0, s, acks, e2)
  {
    hide SlotOk;
    var t' := CreateRoom(t, now, r, c, token).0;
    Reroomed(t, t', s);
    if r == s {
      IdleBare(s, ViewOf(t, s), acks, e2);
      IdleSlot(s, ViewOf(t', s), acks, e2);
    }
  }

  lemma SecondSlots(t: Table, now: Instant, r: RoomId, c: ClientId, token: string, s: RoomId, acks: Acks, e2: bool)
    requires SlotAt(t, s, acks, e2) && r in t.rooms && Idle(t.rooms[r])
    ensures SlotAt(AdmitToP2p(t, now, r, c, token).0, s, acks, e2)
  {
    hide SlotOk;
    var t' := AdmitToP2p(t, now, r, c, token).0;
    Reroomed(t, t', s);
    if r == s {
      IdleBare(s, ViewOf(t, s), acks, e2);
      IdleSlot(s, ViewOf(t', s), acks, e2);
    }
  }

  lemma JoiningSlot(r: RoomId, v: View, c: ClientId, member: Member, ticket: Ticket, q: RequestId, acks: Acks, e2: bool)
    requires SlotOk(r, v, acks, e2) && v.room.Some?
    requires var room := v.room.value;
             room.mode == Sfu && room.pendingJoin.None? && room.pendingLeave.None? && c !in room.members
    ensures var room' := WithMember(v.room.value, c, member)
                         .(pendingJoin := Some(PendingJoin(ticket, c)), downgradeDeadline := None);
            v.room.value.instance.Some? &&
            SlotOk(r, ViewAdding(v.(room := Some(room')), r, q, SfuJoin(v.room.value.instance.value, JoinOf(r, room', c))),
                   acks, e2)
  {
    var room := v.room.value;
    var room' := WithMember(room, c, member)
                 .(pendingJoin := Some(PendingJoin(ticket, c)), downgradeDeadline := None);
    if e2 {
      OneAdded(v.joins, q, SfuJoin(room.instance.value, JoinOf(r, room', c)));
      forall d | d in room'.members && !Awaits(room', d) ensures Acked(acks, r, room', d) {
        assert Acked(acks, r, room, d);
      }
    }
  }

  lemma AdmitToSfuSlots(t: Table, ticket: Ticket, now: Instant, r: RoomId, c: ClientId, token: string,
                        s: RoomId, acks: Acks, e2: bool)
    requires SlotAt(t, s, acks, e2) && CommandsOk(t) && r in t.rooms
    requires var room := t.rooms[r];
             room.mode == Sfu && room.pendingJoin.None? && room.pendingLeave.None? && c !in room.members
    ensures SlotAt(AdmitToSfu(t, ticket, now, r, c, token).0, s, acks, e2)
  {
    hide SlotOk, CommandsOk;
    var room := t.rooms[r];
    if RoomConnection(t, room).Some? {
      var member := NewMember(now, t.grace, token, false, NextLifecycle(t, r, c));
      var room' := WithMember(room, c, member).(pendingJoin := Some(PendingJoin(ticket, c)), downgradeDeadline := None);
      var t1 := PutRoom(DrawLifecycle(t, r, c), r, room');
      var i := room.instance.value;
      var join := JoinMember(r, c, member.lifecycle, room.assignmentEpoch);
      Reroomed(t, t1, s);
      FreshRequest(t);
      IssueView(t1, i, Connection(t, i).value, JoinCommand(join), SfuJoin(i, join), s);
      if r == s {
        assert JoinOf(r, room', c) == join;
        JoiningSlot(r, ViewOf(t, r), c, member, ticket, t.nextRequest, acks, e2);
      } else {
        assert ViewAdding(ViewOf(t, s), s, t.nextRequest, SfuJoin(i, join)) == ViewOf(t, s);
      }
    }
  }

  lemma BeginBarrier(t: Table, ticket: Ticket, now: Instant, r: RoomId, c: ClientId, token: string, i: InstanceId,
                     acks: Acks)
    requires r in t.rooms && c !in t.rooms[r].members
    ensures BarrierShape(r, UpgradingRoom(t, ticket, now, r, c, token, i), acks)
  {
    var room := UpgradingRoom(t, ticket, now, r, c, token, i);
    var existing := t.rooms[r].members.Keys;
    assert room.members.Keys - {c} == existing;
    SortedSeqLists(existing);
  }

  lemma StartIssues(t: Table, ticket: Ticket, now: Instant, r: RoomId, c: ClientId, token: string, i: InstanceId)
    requires r in t.rooms && i in t.workers && t.workers[i].connection.Some?
    requires var room := UpgradingRoom(t, ticket, now, r, c, token, i);
             && room.upgrade.Some? && room.upgrade.value.next < |room.upgrade.value.ordered| && Awaited(room) in room.members
    ensures var room := UpgradingRoom(t, ticket, now, r, c, token, i);
            var join := JoinOf(r, room, Awaited(room));
            StartUpgrade(t, ticket, now, r, c, token, i)
            == (IssueCommand(BeginUpgrade(t, ticket, now, r, c, token, i), i, t.workers[i].connection.value,
                             JoinCommand(join), UpgradeJoin(i, join)),
                Ok(AdmissionPending))
  {
    assert UpgradingRoom(t, ticket, now, r, c, token, i).instance == Some(i);
    hide UpgradingRoom, FreshLifecycles, IssueCommand;
  }

  lemma BeginView(t: Table, ticket: Ticket, now: Instant, r: RoomId, c: ClientId, token: string, i: InstanceId, s: RoomId)
    requires r in t.rooms && i in t.workers
    ensures ViewOf(BeginUpgrade(t, ticket, now, r, c, token, i), s)
            == if s != r then ViewOf(t, s) else
               ViewOf(t, r).(room := Some(UpgradingRoom(t, ticket, now, r, c, token, i)), hosts := Hosts(t.workers, r) + {i})
  {
    hide BarrierRoom, Draws, NewMember;
    var begun := BeginUpgrade(t, ticket, now, r, c, token, i);
    assert Hosts(begun.workers, s) == if s == r then Hosts(t.workers, s) + {i} else Hosts(t.workers, s);
    hide UpgradingRoom, FreshLifecycles, Slot, Hosts;
  }

  lemma AwaitedMember(r: RoomId, room: Room, acks: Acks)
    requires BarrierShape(r, room, acks)
    ensures Awaited(room) in room.members
  {
  }

  lemma UpgradingSlot(r: RoomId, room: Room, v: View, i: InstanceId, q: RequestId, acks: Acks, e2: bool)
    requires BarrierShape(r, room, acks) && room.mode == Upgrading && room.instance == Some(i)
    requires room.pendingJoin.None? && room.pendingLeave.None?
    requires v.room == Some(room) && v.hosts == {i} && v.upgrades == map[] && v.leaves == map[] && (e2 ==> v.joins == map[])
    ensures Awaited(room) in room.members
    ensures SlotOk(r, ViewAdding(v, r, q, UpgradeJoin(i, JoinOf(r, room, Awaited(room)))), acks, e2)
  {
    OneAdded(v.upgrades, q, UpgradeJoin(i, JoinOf(r, room, Awaited(room))));
  }

  /** The view of a room once an upgrade, of this room or of another, has begun. */
  lemma StartView(t: Table, ticket: Ticket, now: Instant, r: RoomId, c: ClientId, token: string, i: InstanceId, s: RoomId,
                  acks: Acks)
    requires CommandsOk(t) && r in t.rooms && c !in t.rooms[r].members && i in t.workers && t.workers[i].connection.Some?
    ensures var room := UpgradingRoom(t, ticket, now, r, c, token, i);
            && BarrierShape(r, room, acks)
            && StartUpgrade(t, ticket, now, r, c, token, i).1 == Ok(AdmissionPending)
            && ViewOf(StartUpgrade(t, ticket, now, r, c, token, i).0, s)
               == ViewAdding(ViewOf(BeginUpgrade(t, ticket, now, r, c, token, i), s), s, t.nextRequest,
                             UpgradeJoin(i, JoinOf(r, room, Awaited(room))))
  {
    var room := UpgradingRoom(t, ticket, now, r, c, token, i);
    var begun := BeginUpgrade(t, ticket, now, r, c, token, i);
    assert begun.nextRequest == t.nextRequest && begun.pending == t.pending by { hide UpgradingRoom; }
    BeginBarrier(t, ticket, now, r, c, token, i, acks);
    AwaitedMember(r, room, acks);
    var join := JoinOf(r, room, Awaited(room));
    FreshRequest(t);
    StartIssues(t, ticket, now, r, c, token, i);
    hide CommandsOk, ViewOf, ViewAdding, UpgradingRoom, BeginUpgrade, StartUpgrade, IssueCommand, Awaited;
    IssueView(begun, i, t.workers[i].connection.value, JoinCommand(join), UpgradeJoin(i, join), s);
  }

  lemma StartUpgradeSlots(t: Table, ticket: Ticket, now: Instant, r: RoomId, c: ClientId, token: string,
                          i: InstanceId, s: RoomId, acks: Acks, e2: bool)
    requires SlotAt(t, s, acks, e2) && CommandsOk(t)
    requires r in t.rooms && t.rooms[r].mode == P2p && c !in t.rooms[r].members && Idle(t.rooms[r])
    requires i in t.workers && t.workers[i].connection.Some?
    ensures StartUpgrade(t, ticket, now, r, c, token, i).1 == Ok(AdmissionPending)
    ensures SlotAt(StartUpgrade(t, ticket, now, r, c, token, i).0, s, acks, e2)
  {
    StartView(t, ticket, now, r, c, token, i, s, acks);
    BeginView(t, ticket, now, r, c, token, i, s);
    var room := UpgradingRoom(t, ticket, now, r, c, token, i);
    assert room.instance == Some(i) && room.mode == Upgrading && room.pendingJoin.None? && room.pendingLeave.None?;
    hide SlotOk, CommandsOk, BarrierShape, UpgradingRoom, BeginUpgrade, StartUpgrade, Slot, Hosts, Awaited;
    if r == s {
      IdleBare(s, ViewOf(t, s), acks, e2);
      assert ViewOf(t, r).hosts == Hosts(t.workers, r) && {} + {i} == {i};
      UpgradingSlot(r, room, ViewOf(t, r).(room := Some(room), hosts := {i}), i, t.nextRequest, acks, e2);
    }
  }

  lemma AdmitSlots(t: Table, ticket: Ticket, now: Instant, r: RoomId, c: ClientId, token: string,
                   s: RoomId, acks: Acks, e2: bool)
    requires SlotAt(t, s, acks, e2) && CommandsOk(t) && (r in t.rooms ==> RoomShape(t.rooms[r]))
    ensures SlotAt(Admit(t, ticket, now, r, c, token).0, s, acks, e2)
  {
    if r !in t.rooms {
      CreateSlots(t, now, r, c, token, s, acks, e2);
    } else if c !in t.rooms[r].members {
      var room := t.rooms[r];
      if room.mode == Sfu && room.pendingJoin.None? && room.pendingLeave.None? {
        AdmitToSfuSlots(t, ticket, now, r, c, token, s, acks, e2);
      } else if room.mode == P2p {
        SecondSlots(t, now, r, c, token, s, acks, e2);
        if SelectWorker(t, 3).Some? {
          StartUpgradeSlots(t, ticket, now, r, c, token, SelectWorker(t, 3).value, s, acks, e2);
        }
      }
    }
    hide SlotAt, CommandsOk, RoomShape, CreateRoom, AdmitToSfu, AdmitToP2p, StartUpgrade, LessLoaded;
  }

  // ---- browsers ----

  lemma SkeletonSlots(t: Table, t': Table, r: RoomId, s: RoomId, acks: Acks, e2: bool)
    requires SlotAt(t, s, acks, e2) && r in t.rooms
    requires t'.pending == t.pending && t'.workers == t.workers
    requires r in t'.rooms && t'.rooms == t.rooms[r := t'.rooms[r]] && SameSkeleton(t.rooms[r], t'.rooms[r])
    ensures SlotAt(t', s, acks, e2)
  {
    hide SlotOk, SameSkeleton;
    Reroomed(t, t', s);
    if r == s {
      SkeletonSlot(r, ViewOf(t, r), t'.rooms[r], acks, e2);
    }
  }

  lemma LeavingSlot(r: RoomId, v: View, c: ClientId, ticket: Option<Ticket>, q: RequestId, acks: Acks, e2: bool)
    requires SlotOk(r, v, acks, e2) && v.room.Some?
    requires var room := v.room.value;
             room.mode == Sfu && room.pendingLeave.None? && c in room.members && (e2 ==> !Awaits(room, c))
    ensures var room := v.room.value;
            var room' := room.(pendingLeave := Some(PendingLeave(ticket, c)));
            room.instance.Some? &&
            SlotOk(r, ViewAdding(v.(room := Some(room')), r, q,
                                 SfuLeave(room.instance.value, r, c, room.members[c].lifecycle, room.assignmentEpoch)),
                   acks, e2)
  {
    var room := v.room.value;
    var room' := room.(pendingLeave := Some(PendingLeave(ticket, c)));
    var p := SfuLeave(room.instance.value, r, c, room.members[c].lifecycle, room.assignmentEpoch);
    OneAdded(v.leaves, q, p);
    assert LeaveOf(r, room', p);
    if e2 {
      assert forall d :: d in room.members ==> JoinOf(r, room, d) == JoinOf(r, room', d);
      forall d | d in room'.members && !Awaits(room', d) ensures Acked(acks, r, room', d) {
        assert Acked(acks, r, room, d);
      }
    }
  }

  lemma IssueSfuLeaveSlots(t: Table, r: RoomId, c: ClientId, ticket: Option<Ticket>, reason: LeaveReason,
                           s: RoomId, acks: Acks, e2: bool)
    requires SlotAt(t, s, acks, e2) && CommandsOk(t)
    requires e2 && r in t.rooms && LeaveCanGo(t, t.rooms[r]) ==> !Awaits(t.rooms[r], c)
    ensures var left := IssueSfuLeave(t, r, c, ticket, reason);
            left.Some? ==> SlotAt(left.value, s, acks, e2)
  {
    hide SlotOk, CommandsOk;
    if IssueSfuLeave(t, r, c, ticket, reason).Some? {
      var room := t.rooms[r];
      var room' := room.(pendingLeave := Some(PendingLeave(ticket, c)));
      var t1 := PutRoom(t, r, room');
      var i := room.instance.value;
      var lifecycle := room.members[c].lifecycle;
      var p := SfuLeave(i, r, c, lifecycle, room.assignmentEpoch);
      Reroomed(t, t1, s);
      FreshRequest(t);
      IssueView(t1, i, Connection(t, i).value,
                LeaveCommand(LeaveMember(r, c, lifecycle, room.assignmentEpoch, reason)), p, s);
      if r == s {
        LeavingSlot(r, ViewOf(t, r), c, ticket, t.nextRequest, acks, e2);
      } else {
        assert ViewAdding(ViewOf(t, s), s, t.nextRequest, p) == ViewOf(t, s);
      }
    }
  }

  lemma LeaveOrWaitSlots(t: Table, now: Instant, r: RoomId, c: ClientId, s: RoomId, acks: Acks, e2: bool)
    requires SlotAt(t, s, acks, e2) && CommandsOk(t)
    requires e2 && r in t.rooms && LeaveCanGo(t, t.rooms[r]) ==> !Awaits(t.rooms[r], c)
    ensures SlotAt(LeaveOrWait(t, now, r, c), s, acks, e2)
    ensures SlotAt(SetDeadline(t, r, c, now + t.grace), s, acks, e2)
  {
    hide SlotOk, CommandsOk, IssueSfuLeave, ViewOf;
    IssueSfuLeaveSlots(t, r, c, None, Disconnected, s, acks, e2);
    var t' := SetDeadline(t, r, c, now + t.grace);
    if r in t.rooms && c in t.rooms[r].members {
      SkeletonSlots(t, t', r, s, acks, e2);
    } else {
      assert t' == t;
    }
  }

  lemma DeregisterSlots(t: Table, now: Instant, r: RoomId, c: ClientId, s: RoomId, acks: Acks, e2: bool)
    requires SlotAt(t, s, acks, e2) && CommandsOk(t)
    requires e2 ==> !LeavesJoiner(t, DeregisterStep(now, r, c))
    ensures SlotAt(Deregister(t, now, r, c), s, acks, e2)
  {
    hide SlotOk, CommandsOk, LeaveOrWait, SetDeadline, ViewOf, EmitsFresh;
    if r in t.rooms && c in t.rooms[r].members && t.rooms[r].members[c].registered {
      var room := t.rooms[r];
      var room' := WithMember(room, c, room.members[c].(registered := false));
      var t1 := PutRoom(t, r, room');
      SkeletonSlots(t, t1, r, s, acks, e2);
      QuietLog(t, t1);
      assert LeaveCanGo(t1, room') == LeaveCanGo(t, room) && Awaits(room', c) == Awaits(room, c);
      LeaveOrWaitSlots(t1, now, r, c, s, acks, e2);
    }
  }

  lemma RegisterSlots(t: Table, r: RoomId, c: ClientId, token: string, order: seq<ClientId>,
                      s: RoomId, acks: Acks, e2: bool)
    requires SlotAt(t, s, acks, e2)
    ensures SlotAt(Register(t, r, c, token, order).0, s, acks, e2)
  {
    hide SlotOk, ViewOf, QueuedFor;
    var t' := Register(t, r, c, token, order).0;
    if t' != t {
      SkeletonSlots(t, t', r, s, acks, e2);
    }
  }

  lemma SendSlots(t: Table, r: RoomId, c: ClientId, epoch: nat, message: string, order: seq<ClientId>,
                  s: RoomId, acks: Acks, e2: bool)
    requires SlotAt(t, s, acks, e2) && CommandsOk(t)
    ensures SlotAt(Send(t, r, c, epoch, message, order).0, s, acks, e2)
  {
    hide SlotOk, CommandsOk, ViewOf;
    if r in t.rooms && c in t.rooms[r].members {
      var room := t.rooms[r];
      EnqueueSlots(t, r, c, message, s, acks, e2);
      hide Enqueue, IssueCommand;
      if RoomConnection(t, room).Some? {
        var i := room.instance.value;
        var signal := Signal(r, c, room.members[c].lifecycle, room.assignmentEpoch, message, None);
        SideIssueView(t, i, Connection(t, i).value, SignalCommand(signal), SignalPending, s);
      }
    }
  }

  lemma EnqueueSlots(t: Table, r: RoomId, c: ClientId, message: string, s: RoomId, acks: Acks, e2: bool)
    requires SlotAt(t, s, acks, e2) && r in t.rooms && c in t.rooms[r].members
    ensures SlotAt(Enqueue(t, r, c, message).0, s, acks, e2)
  {
    hide SlotOk, ViewOf;
    SkeletonSlots(t, Enqueue(t, r, c, message).0, r, s, acks, e2);
  }

  lemma IdleSlots(t: Table, t': Table, r: RoomId, s: RoomId, acks: Acks, e2: bool)
    requires SlotAt(t, s, acks, e2) && r in t.rooms && Idle(t.rooms[r])
    requires t'.pending == t.pending && t'.workers == t.workers
    requires r !in t'.rooms || Idle(t'.rooms[r])
    requires s != r ==> RoomAt(t', s) == RoomAt(t, s)
    ensures SlotAt(t', s, acks, e2)
  {
    hide SlotOk;
    Reroomed(t, t', s);
    if r == s {
      IdleBare(s, ViewOf(t, s), acks, e2);
      IdleSlot(s, ViewOf(t', s), acks, e2);
    }
  }

  lemma PromoteIdle(room: Room)
    requires Idle(room)
    ensures Idle(Survivors(room))
  {
  }

  lemma RemoveSlots(t: Table, ticket: Ticket, r: RoomId, c: ClientId, token: string, s: RoomId, acks: Acks, e2: bool)
    requires SlotAt(t, s, acks, e2) && CommandsOk(t)
    ensures SlotAt(Remove(t, ticket, r, c, token).0, s, acks, e2)
  {
    hide SlotAt, CommandsOk, IssueSfuLeave, Survivors, PromotionOf, PutOrReap;
    if r in t.rooms && c in t.rooms[r].members && t.rooms[r].pendingJoin.None? && t.rooms[r].pendingLeave.None? {
      var room := t.rooms[r];
      IssueSfuLeaveSlots(t, r, c, Some(ticket), User, s, acks, e2);
      if Idle(room) {
        var rest := WithoutMember(room, c);
        PromoteIdle(rest);
        ReapSlots(t, r, rest, s, acks, e2);
        ReapSlots(t, r, Survivors(rest), s, acks, e2);
      }
    }
  }

  lemma ReapSlots(t: Table, r: RoomId, room: Room, s: RoomId, acks: Acks, e2: bool)
    requires SlotAt(t, s, acks, e2) && r in t.rooms && Idle(t.rooms[r]) && Idle(room)
    ensures SlotAt(PutOrReap(t, r, room), s, acks, e2)
  {
    hide SlotAt;
    IdleSlots(t, PutOrReap(t, r, room), r, s, acks, e2);
  }

  // ---- worker sessions ----

  lemma ResyncRoomView(t: Table, i: InstanceId, connection: ConnectionId, r: RoomId, commands: seq<RequestId>, s: RoomId)
    requires CommandsOk(t)
    ensures var t' := ResyncRoom(t, i, connection, r, commands); CommandsOk(t') && ViewOf(t', s) == ViewOf(t, s)
  {
    hide CommandsOk, ViewOf, Replay, Projection, EmitsFresh, IssueCommand;
    if r in t.rooms {
      SideIssueView(t, i, connection, SyncCommand(SyncRoom(r, t.rooms[r].assignmentEpoch, Projection(t.rooms[r]))),
                    SyncPending(i, r, t.rooms[r].assignmentEpoch, Replay(t, i, r, commands)), s);
    }
    ResyncRoomLog(t, i, connection, r, commands);
  }

  lemma ResyncSlots(t: Table, i: InstanceId, connection: ConnectionId, rooms: seq<RoomId>, commands: seq<RequestId>,
                    s: RoomId)
    requires CommandsOk(t)
    ensures ViewOf(ResyncRooms(t, i, connection, rooms, commands), s) == ViewOf(t, s)
    ensures ResyncRooms(t, i, connection, rooms, commands).workers == t.workers
  {
    hide CommandsOk, ViewOf, ResyncRoom, ResyncRooms;
    forall t0: Table, r: RoomId | CommandsOk(t0) && ViewOf(t0, s) == ViewOf(t, s)
      ensures var t1 := ResyncRoom(t0, i, connection, r, commands); CommandsOk(t1) && ViewOf(t1, s) == ViewOf(t, s)
    {
      ResyncRoomView(t0, i, connection, r, commands, s);
    }
    ResyncKeeps(t0 => CommandsOk(t0) && ViewOf(t0, s) == ViewOf(t, s), t, i, connection, rooms, commands);
    ResyncFrame(t, i, connection, rooms, commands);
  }

  lemma RegisterWorkerSlots(t: Table, connection: ConnectionId, i: InstanceId, request: RequestId,
                            capacity: Capacity, rooms: seq<RoomId>, commands: seq<RequestId>,
                            s: RoomId, acks: Acks, e2: bool)
    requires SlotAt(t, s, acks, e2) && CommandsOk(t)
    ensures SlotAt(RegisterWorker(t, connection, i, request, capacity, rooms, commands), s, acks, e2)
  {
    hide SlotOk, CommandsOk, EmitsFresh, ResyncRooms;
    var session := OpenSession(t, connection, i, request, capacity);
    RegisterWorkerLog(t, connection, i, request, capacity, rooms, commands);
    ResyncSlots(session, i, connection, rooms, commands, s);
    ForgetOthersView(t, Superseded(t, i), s);
    assert Hosts(session.workers, s) == Hosts(t.workers, s);
    assert ViewOf(session, s) == ViewOf(Forget(t, Superseded(t, i)), s);
    if InvalidRegistration(i, request, capacity) {
      Reroomed(t, RegisterWorker(t, connection, i, request, capacity, rooms, commands), s);
    }
  }

  lemma EventSlots(t: Table, connection: ConnectionId, i: InstanceId, event: Event, s: RoomId, acks: Acks, e2: bool)
    requires SlotAt(t, s, acks, e2) && !ReachesFailRoom(t, EventStep(connection, i, event))
    ensures SlotAt(HandleEvent(t, connection, i, event).0, s, acks, e2)
  {
    hide SlotOk, HandleEvent;
    var t' := HandleEvent(t, connection, i, event).0;
    EventFrame(t, connection, i, event);
    assert Hosts(t'.workers, s) == Hosts(t.workers, s);
    Reroomed(t, t', s);
  }

  /** An event only touches the duplicate window and the health of its own worker. */
  ghost predicate SameAssignments(t: Table, t': Table) {
    && t'.rooms == t.rooms && t'.pending == t.pending && t'.workers.Keys == t.workers.Keys
    && forall j :: j in t.workers ==>
         && t'.workers[j].rooms == t.workers[j].rooms && t'.workers[j].clients == t.workers[j].clients
         && t'.workers[j].connection == t.workers[j].connection && t'.workers[j].deadline == t.workers[j].deadline
  }

  lemma RememberFrame(worker: Worker, id: nat)
    ensures var worker' := Remember(worker, id);
            && worker'.rooms == worker.rooms && worker'.clients == worker.clients
            && worker'.connection == worker.connection && worker'.deadline == worker.deadline
            && worker'.capacity == worker.capacity && worker'.health == worker.health
  {
  }

  lemma WorkerFrame(t: Table, t': Table, i: InstanceId)
    requires i in t.workers && i in t'.workers && t'.workers == t.workers[i := t'.workers[i]]
    requires t'.workers[i].rooms == t.workers[i].rooms && t'.workers[i].clients == t.workers[i].clients
    requires t'.workers[i].connection == t.workers[i].connection && t'.workers[i].deadline == t.workers[i].deadline
    requires t'.rooms == t.rooms && t'.pending == t.pending
    ensures SameAssignments(t, t')
  {
  }

  lemma SignalFrame(t: Table, connection: ConnectionId, i: InstanceId, id: nat, signal: Signal)
    ensures var t' := RelaySignal(t, connection, i, id, signal).0;
            t'.rooms == t.rooms && t'.pending == t.pending && t'.workers == t.workers
  {
  }

  lemma FreshEventFrame(t: Table, connection: ConnectionId, i: InstanceId, event: Event)
    requires i in t.workers && !(event.kind.FailureEvent? && event.kind.room.Some?)
    ensures SameAssignments(t, FreshEvent(t, connection, i, event).0)
  {
    hide SameAssignments, RelaySignal;
    if event.kind.SignalEvent? {
      SignalFrame(t, connection, i, event.id, event.kind.signal);
    }
    WorkerFrame(t, FreshEvent(t, connection, i, event).0, i);
  }

  lemma EventFrame(t: Table, connection: ConnectionId, i: InstanceId, event: Event)
    requires !ReachesFailRoom(t, EventStep(connection, i, event))
    ensures SameAssignments(t, HandleEvent(t, connection, i, event).0)
  {
    hide FreshEvent, Remember;
    if i in t.workers && t.workers[i].connection == Some(connection) && event.id != 0
       && event.id !in t.workers[i].seen {
      var t1 := PutWorker(t, i, Remember(t.workers[i], event.id));
      RememberFrame(t.workers[i], event.id);
      FreshEventFrame(t1, connection, i, event);
      WorkerFrame(t, t1, i);
    } else if i in t.workers {
      WorkerFrame(t, HandleEvent(t, connection, i, event).0, i);
    } else {
      assert SameAssignments(t, t);
    }
  }

  // ---- command results ----

  lemma AbortedSlot(r: RoomId, v: View, acks: Acks, e2: bool)
    requires v.room.Some? && v.room.value.upgrade.Some?
    requires v.room.value.pendingJoin.None? && v.room.value.pendingLeave.None?
    requires v.upgrades == map[] && v.leaves == map[] && (e2 ==> v.joins == map[])
    ensures SlotOk(r, v.(room := Some(AbortedRoom(v.room.value)), hosts := {}), acks, e2)
  {
  }

  /** Aborting a barrier whose Join is no longer in flight. */
  lemma AbortView(t: Table, r: RoomId, reason: string, s: RoomId)
    requires CommandsOk(t)
    requires r in t.rooms && t.rooms[r].upgrade.Some? && t.rooms[r].instance.Some?
    requires forall c :: c in t.rooms[r].upgrade.value.joined ==> c in AbortedRoom(t.rooms[r]).members
    ensures AbortUpgrade(t, r, reason).1.Ok?
    ensures ViewOf(AbortUpgrade(t, r, reason).0, s)
            == if s == r then ViewOf(t, r).(room := Some(AbortedRoom(t.rooms[r])),
                                            hosts := Hosts(t.workers, r) - {t.rooms[r].instance.value})
               else ViewOf(t, s)
  {
    hide CommandsOk, EmitsFresh, Cleanup, Hosts, Slot;
    var room := t.rooms[r];
    var i := room.instance.value;
    var t1 := PutRoom(t, r, AbortedRoom(room));
    var t2 := Unassign(t1, r, i, 3);
    QuietLog(t, t2);
    UnassignHosts(t1, r, i, 3, s);
    CleanupView(t2, r, i, room.upgrade.value.joined, room.assignmentEpoch, s);
    CleanupSucceeds(t2, r, i, room.upgrade.value.joined, room.assignmentEpoch);
    assert ViewOf(AbortUpgrade(t, r, reason).0, s)
        == ViewOf(Cleanup(t2, r, i, room.upgrade.value.joined, room.assignmentEpoch).0, s);
  }

  /** The acknowledged clients of a barrier are members other than the joiner. */
  lemma JoinedMembers(r: RoomId, room: Room, acks: Acks)
    requires BarrierShape(r, room, acks)
    ensures forall c :: c in room.upgrade.value.joined ==> c in AbortedRoom(room).members
  {
    var upgrade := room.upgrade.value;
    var rest := room.members.Keys - {upgrade.joining};
    SortedSeqLists(rest);
    forall c | c in upgrade.joined ensures c in AbortedRoom(room).members {
      var k :| 0 <= k < |upgrade.joined| && upgrade.joined[k] == c;
      assert upgrade.joined[k] == SortedSeq(rest)[k];
      assert c in SortedSeq(rest);
    }
  }

  lemma AbortSlots(t: Table, r: RoomId, reason: string, s: RoomId, acks: Acks, e2: bool)
    requires CommandsOk(t) && (s != r ==> SlotAt(t, s, acks, e2))
    requires r in t.rooms && BarrierShape(r, t.rooms[r], acks) && HostsOk(t.rooms[r], Hosts(t.workers, r))
    requires t.rooms[r].mode == Upgrading && t.rooms[r].pendingJoin.None? && t.rooms[r].pendingLeave.None?
    requires Slot(t.pending, UpgradeSlot, r) == map[] && Slot(t.pending, LeaveSlot, r) == map[]
    requires e2 ==> Slot(t.pending, JoinSlot, r) == map[]
    ensures AbortUpgrade(t, r, reason).1.Ok?
    ensures SlotAt(AbortUpgrade(t, r, reason).0, s, acks, e2)
  {
    hide SlotOk, CommandsOk, AbortUpgrade, Slot, Hosts;
    JoinedMembers(r, t.rooms[r], acks);
    AbortView(t, r, reason, s);
    if r == s {
      var i := t.rooms[r].instance.value;
      assert {i} - {i} == {};
      AbortedSlot(r, ViewOf(t, r), acks, e2);
    }
  }

  lemma AdvancedBarrier(r: RoomId, room: Room, acks: Acks)
    requires BarrierShape(r, room, acks) && room.upgrade.value.next + 1 < |room.upgrade.value.ordered|
    requires Acked(acks, r, room, Awaited(room))
    ensures BarrierShape(r, AdvancedRoom(room, Awaited(room)), acks)
  {
    var room' := AdvancedRoom(room, Awaited(room));
    assert forall c :: c in room.members ==> JoinOf(r, room, c) == JoinOf(r, room', c);
    assert forall c :: Acked(acks, r, room, c) ==> Acked(acks, r, room', c);
  }

  /** When the barrier completes, every member has been acknowledged. */
  lemma CompletedBarrier(r: RoomId, room: Room, acks: Acks)
    requires BarrierShape(r, room, acks) && room.upgrade.value.next + 1 == |room.upgrade.value.ordered|
    requires Acked(acks, r, room, Awaited(room))
    ensures forall c :: c in room.members ==> Acked(acks, r, room, c)
  {
    var upgrade := room.upgrade.value;
    var rest := room.members.Keys - {upgrade.joining};
    SortedSeqLists(rest);
    forall c | c in room.members ensures Acked(acks, r, room, c) {
      if c != upgrade.joining {
        assert c in SortedSeq(rest);
        var k :| 0 <= k < |SortedSeq(rest)| && SortedSeq(rest)[k] == c;
        assert upgrade.joined[k] == c;
      }
    }
  }

  lemma CommittedSlot(r: RoomId, v: View, room: Room, acks: Acks, e2: bool)
    requires v.room == Some(room) && room.upgrade.Some? && room.instance.Some? && HostsOk(room, v.hosts)
    requires room.mode == Upgrading && room.pendingJoin.None? && room.pendingLeave.None?
    requires v.upgrades == map[] && v.leaves == map[] && (e2 ==> v.joins == map[])
    requires forall c :: c in room.members ==> Acked(acks, r, room, c)
    ensures SlotOk(r, v.(room := Some(CommittedRoom(AdvancedRoom(room, Awaited(room))))), acks, e2)
    requires room.upgrade.value.next < |room.upgrade.value.ordered|
  {
    var room' := CommittedRoom(AdvancedRoom(room, Awaited(room)));
    assert room'.members.Keys == room.members.Keys;
    assert forall c :: c in room.members ==> JoinOf(r, room, c) == JoinOf(r, room', c);
    assert forall c :: Acked(acks, r, room, c) ==> Acked(acks, r, room', c);
  }

  /** The room an UpgradeJoin in flight belongs to. */
  lemma UpgradeRoom(t: Table, q: RequestId, acks: Acks, e2: bool)
    requires q in t.pending && t.pending[q].UpgradeJoin?
    requires SlotAt(t, t.pending[q].join.room, acks, e2)
    ensures var r := t.pending[q].join.room;
            && r in t.rooms && t.rooms[r].mode == Upgrading
            && BarrierShape(r, t.rooms[r], acks) && HostsOk(t.rooms[r], Hosts(t.workers, r))
            && t.rooms[r].pendingJoin.None? && t.rooms[r].pendingLeave.None?
            && t.pending[q] == UpgradeJoin(t.rooms[r].instance.value, JoinOf(r, t.rooms[r], Awaited(t.rooms[r])))
            && Slot(t.pending, UpgradeSlot, r) - {q} == map[]
            && Slot(t.pending, LeaveSlot, r) == map[] && (e2 ==> Slot(t.pending, JoinSlot, r) == map[])
  {
    var r := t.pending[q].join.room;
    assert q in Slot(t.pending, UpgradeSlot, r);
    var room := t.rooms[r];
    OneGone(Slot(t.pending, UpgradeSlot, r),
            UpgradeJoin(room.instance.value, JoinOf(r, room, Awaited(room))), q);
  }

  lemma UpgradeJoinSlots(t: Table, q: RequestId, i: InstanceId, result: CommandResult, s: RoomId,
                         acks: Acks, e2: bool)
    requires CommandsOk(t) && q in t.pending && t.pending[q].UpgradeJoin?
    requires SlotAt(t, s, acks, e2) && SlotAt(t, t.pending[q].join.room, acks, e2)
    requires i in t.workers && t.workers[i].connection.Some?
    requires t.pending[q].instance == i && Joined(result, t.pending[q].join) ==> (i, t.pending[q].join) in acks
    ensures var done := UpgradeJoinResult(Forget(t, {q}), i, t.pending[q], result);
            done.1.Ok? && SlotAt(done.0, s, acks, e2)
  {
    hide SlotOk, CommandsOk, EmitsFresh, Slot, Hosts, BarrierShape;
    var p := t.pending[q];
    var r := p.join.room;
    var t1 := Forget(t, {q});
    ForgetLog(t, {q});
    UpgradeRoom(t, q, acks, e2);
    ForgetView(t, {q}, s);
    ForgetView(t, {q}, r);
    assert Slot(t1.pending, UpgradeSlot, r) == map[];
    assert Slot(t1.pending, LeaveSlot, r) == map[] && (e2 ==> Slot(t1.pending, JoinSlot, r) == map[]);
    if s != r {
      ForgetOthersView(t, {q}, s);
    }
    if p.instance != i || !Joined(result, p.join) {
      AbortSlots(t1, r, ErrorReason(result), s, acks, e2);
    } else {
      UpgradeAckSlots(t1, r, i, p, s, acks, e2);
    }
  }

  lemma UpgradeAckSlots(t: Table, r: RoomId, i: InstanceId, p: PendingCommand, s: RoomId, acks: Acks, e2: bool)
    requires CommandsOk(t) && (s != r ==> SlotAt(t, s, acks, e2))
    requires r in t.rooms && BarrierShape(r, t.rooms[r], acks) && HostsOk(t.rooms[r], Hosts(t.workers, r))
    requires t.rooms[r].mode == Upgrading && t.rooms[r].pendingJoin.None? && t.rooms[r].pendingLeave.None?
    requires Slot(t.pending, UpgradeSlot, r) == map[] && Slot(t.pending, LeaveSlot, r) == map[]
    requires e2 ==> Slot(t.pending, JoinSlot, r) == map[]
    requires i in t.workers && t.workers[i].connection.Some? && t.rooms[r].instance == Some(i)
    requires p == UpgradeJoin(i, JoinOf(r, t.rooms[r], Awaited(t.rooms[r]))) && (i, p.join) in acks
    ensures var done := UpgradeAck(t, p);
            done.1.Ok? && SlotAt(done.0, s, acks, e2)
  {
    hide SlotOk, CommandsOk, EmitsFresh, Slot, Hosts;
    var room := t.rooms[r];
    var room1 := AdvancedRoom(room, Awaited(room));
    var t1 := PutRoom(t, r, room1);
    QuietLog(t, t1);
    Reroomed(t, t1, s);
    assert Acked(acks, r, room, Awaited(room));
    if room.upgrade.value.next + 1 == |room.upgrade.value.ordered| {
      CompletedBarrier(r, room, acks);
      CommitView(t1, r, s);
      CommittedSlot(r, ViewOf(t, r), room, acks, e2);
    } else {
      AdvancedBarrier(r, room, acks);
      AwaitedMember(r, room1, acks);
      var join := JoinOf(r, room1, Awaited(room1));
      FreshRequest(t1);
      IssueView(t1, i, t.workers[i].connection.value, JoinCommand(join), UpgradeJoin(i, join), s);
      hide BarrierShape;
      assert IssueNextUpgradeJoin(t1, r)
          == Ok(IssueCommand(t1, i, t.workers[i].connection.value, JoinCommand(join), UpgradeJoin(i, join)));
      if s == r {
        UpgradingSlot(r, room1, ViewOf(t1, r), i, t1.nextRequest, acks, e2);
      } else {
        assert ViewAdding(ViewOf(t, s), s, t1.nextRequest, UpgradeJoin(i, join)) == ViewOf(t, s);
      }
    }
  }

  lemma CommitView(t: Table, r: RoomId, s: RoomId)
    requires r in t.rooms && t.rooms[r].upgrade.Some? && t.rooms[r].upgrade.value.joining in t.rooms[r].members
    ensures CommitUpgrade(t, r).1.Ok?
    ensures ViewOf(CommitUpgrade(t, r).0, s)
            == if s == r then ViewOf(t, r).(room := Some(CommittedRoom(t.rooms[r]))) else ViewOf(t, s)
  {
    hide CommittedRoom, Slot, Hosts;
  }

  // ---- SFU joins and leaves ----

  lemma JoinDoneSlot(r: RoomId, v: View, acks: Acks, accepted: bool)
    requires SlotOk(r, v, acks, true) && v.room.Some? && v.room.value.pendingJoin.Some?
    requires accepted ==> Acked(acks, r, v.room.value, v.room.value.pendingJoin.value.client)
    ensures var room := v.room.value;
            var done := room.(pendingJoin := None);
            SlotOk(r, v.(room := Some(if accepted then done else WithoutMember(done, room.pendingJoin.value.client)),
                         joins := map[]), acks, true)
  {
    var room := v.room.value;
    var done := room.(pendingJoin := None);
    var room' := if accepted then done else WithoutMember(done, room.pendingJoin.value.client);
    assert forall c :: c in room'.members ==> JoinOf(r, room, c) == JoinOf(r, room', c);
    forall c | c in room'.members ensures Acked(acks, r, room', c) {
      assert Acked(acks, r, room, c);
    }
    if room.pendingLeave.Some? {
      var p :| LeaveOf(r, room, p) && Only(v.leaves, p);
      assert LeaveOf(r, room', p);
    }
  }

  lemma SfuJoinRoom(t: Table, q: RequestId, acks: Acks)
    requires q in t.pending && t.pending[q].SfuJoin?
    requires SlotAt(t, t.pending[q].join.room, acks, true)
    ensures var r := t.pending[q].join.room;
            && r in t.rooms && t.rooms[r].mode == Sfu && t.rooms[r].pendingJoin.Some? && t.rooms[r].instance.Some?
            && t.rooms[r].pendingJoin.value.client in t.rooms[r].members
            && t.pending[q] == SfuJoin(t.rooms[r].instance.value, JoinOf(r, t.rooms[r], t.rooms[r].pendingJoin.value.client))
            && Slot(t.pending, JoinSlot, r) - {q} == map[]
            && q !in Slot(t.pending, UpgradeSlot, r) && q !in Slot(t.pending, LeaveSlot, r)
  {
    var r := t.pending[q].join.room;
    assert q in Slot(t.pending, JoinSlot, r);
    var room := t.rooms[r];
    OneGone(Slot(t.pending, JoinSlot, r),
            SfuJoin(room.instance.value, JoinOf(r, room, room.pendingJoin.value.client)), q);
  }

  lemma SfuJoinSlots(t: Table, q: RequestId, i: InstanceId, result: CommandResult, s: RoomId, acks: Acks)
    requires CommandsOk(t) && q in t.pending && t.pending[q].SfuJoin?
    requires SlotAt(t, s, acks, true) && SlotAt(t, t.pending[q].join.room, acks, true)
    requires t.pending[q].instance == i && Joined(result, t.pending[q].join) ==> (i, t.pending[q].join) in acks
    ensures var done := SfuJoinResult(Forget(t, {q}), i, t.pending[q], result);
            done.1.Ok? && SlotAt(done.0, s, acks, true)
  {
    hide SlotOk, CommandsOk, SfuJoinResult;
    var p := t.pending[q];
    var r := p.join.room;
    var t1 := Forget(t, {q});
    SfuJoinRoom(t, q, acks);
    var accepted := p.instance == i && Joined(result, p.join);
    var t2 := SfuJoinResult(t1, i, p, result).0;
    JoinResultRooms(t1, i, p, result);
    CreditFrame(t1, i);
    assert Hosts(t2.workers, s) == Hosts(t.workers, s);
    ForgetView(t, {q}, s);
    Reroomed(t1, t2, s);
    if s == r {
      var v := ViewOf(t, r);
      assert v.upgrades - {q} == v.upgrades && v.leaves - {q} == v.leaves;
      JoinDoneSlot(r, v, acks, accepted);
    } else {
      ForgetOthersView(t, {q}, s);
    }
    hide Slot, Hosts, CreditWorker, WithoutMember, Joined;
  }

  lemma CreditFrame(t: Table, i: InstanceId)
    ensures CreditWorker(t, i) == t.(workers := CreditWorker(t, i).workers)
    ensures CreditWorker(t, i).workers.Keys == t.workers.Keys
    ensures forall j :: j in t.workers ==> CreditWorker(t, i).workers[j].rooms == t.workers[j].rooms
  {
  }

  /** Without E2, a Join result concerns SFU rooms only, and shows nothing a view without joins can see. */
  lemma SfuJoinSlotsE1(t: Table, q: RequestId, i: InstanceId, result: CommandResult, s: RoomId, acks: Acks)
    requires CommandsOk(t) && q in t.pending && t.pending[q].SfuJoin?
    requires SlotAt(t, s, acks, false)
    ensures SlotAt(SfuJoinResult(Forget(t, {q}), i, t.pending[q], result).0, s, acks, false)
  {
    hide SlotOk, CommandsOk, SfuJoinResult;
    var p := t.pending[q];
    var r := p.join.room;
    var t1 := Forget(t, {q});
    ForgetView(t, {q}, s);
    var v := ViewOf(t, s);
    assert v.upgrades - {q} == v.upgrades && v.leaves - {q} == v.leaves;
    JoinsUnseen(s, v, ViewOf(t1, s), acks);
    if r in t.rooms && t.rooms[r].pendingJoin.Some? {
      var t2 := SfuJoinResult(t1, i, p, result).0;
      JoinResultRooms(t1, i, p, result);
      CreditFrame(t1, i);
      assert Hosts(t2.workers, s) == Hosts(t.workers, s);
      Reroomed(t1, t2, s);
      if s == r { JoinDroppedSlot(r, ViewOf(t1, r), acks); }
    } else {
      assert SfuJoinResult(t1, i, p, result).0 == t1 by { NoJoinNoChange(t1, i, p, result); }
    }
    hide Slot, Hosts, CreditWorker, WithoutMember, Joined;
  }

  lemma NoJoinNoChange(t: Table, i: InstanceId, p: PendingCommand, result: CommandResult)
    requires p.SfuJoin? && (p.join.room !in t.rooms || t.rooms[p.join.room].pendingJoin.None?)
    ensures SfuJoinResult(t, i, p, result).0 == t
  {
  }

  lemma JoinsUnseen(r: RoomId, v: View, v': View, acks: Acks)
    requires SlotOk(r, v, acks, false) && v' == v.(joins := v'.joins)
    ensures SlotOk(r, v', acks, false)
  {
  }

  lemma JoinDroppedSlot(r: RoomId, v: View, acks: Acks)
    requires SlotOk(r, v, acks, false) && v.room.Some? && v.room.value.pendingJoin.Some?
    ensures var done := v.room.value.(pendingJoin := None);
            && SlotOk(r, v.(room := Some(done)), acks, false)
            && SlotOk(r, v.(room := Some(WithoutMember(done, v.room.value.pendingJoin.value.client))), acks, false)
  {
    var room := v.room.value;
    if room.pendingLeave.Some? {
      var p :| LeaveOf(r, room, p) && Only(v.leaves, p);
      assert LeaveOf(r, room.(pendingJoin := None), p);
      assert LeaveOf(r, WithoutMember(room.(pendingJoin := None), room.pendingJoin.value.client), p);
    }
  }

  lemma SfuLeaveRoom(t: Table, q: RequestId, acks: Acks, e2: bool)
    requires q in t.pending && t.pending[q].SfuLeave?
    requires SlotAt(t, t.pending[q].room, acks, e2)
    ensures var r := t.pending[q].room;
            && r in t.rooms && t.rooms[r].mode == Sfu && t.rooms[r].pendingLeave.Some? && t.rooms[r].instance.Some?
            && LeaveOf(r, t.rooms[r], t.pending[q])
            && Slot(t.pending, LeaveSlot, r) - {q} == map[]
            && q !in Slot(t.pending, UpgradeSlot, r) && q !in Slot(t.pending, JoinSlot, r)
            && HostsOk(t.rooms[r], Hosts(t.workers, r))
  {
    var r := t.pending[q].room;
    assert q in Slot(t.pending, LeaveSlot, r);
    var p :| LeaveOf(r, t.rooms[r], p) && Only(Slot(t.pending, LeaveSlot, r), p);
    OneGone(Slot(t.pending, LeaveSlot, r), p, q);
  }

  lemma LeaveDoneSlot(r: RoomId, v: View, dwell: nat, now: Instant, acks: Acks, e2: bool)
    requires SlotOk(r, v, acks, e2) && v.room.Some? && v.room.value.pendingLeave.Some?
    ensures var room := v.room.value;
            var done := room.(pendingLeave := None);
            && SlotOk(r, v.(room := Some(done), leaves := map[]), acks, e2)
            && SlotOk(r, v.(room := Some(Armed(dwell, WithoutMember(done, room.pendingLeave.value.client), now)),
                            leaves := map[]), acks, e2)
  {
    var room := v.room.value;
    var done := room.(pendingLeave := None);
    var rest := WithoutMember(done, room.pendingLeave.value.client);
    LeftSlot(r, v, acks, e2);
    hide SlotOk, Armed;
    SkeletonSlot(r, v.(room := Some(rest), leaves := map[]), Armed(dwell, rest, now), acks, e2);
  }

  lemma LeftSlot(r: RoomId, v: View, acks: Acks, e2: bool)
    requires SlotOk(r, v, acks, e2) && v.room.Some? && v.room.value.pendingLeave.Some?
    ensures var done := v.room.value.(pendingLeave := None);
            && SlotOk(r, v.(room := Some(done), leaves := map[]), acks, e2)
            && SlotOk(r, v.(room := Some(WithoutMember(done, v.room.value.pendingLeave.value.client)), leaves := map[]),
                      acks, e2)
  {
    var room := v.room.value;
    var done := room.(pendingLeave := None);
    var rest := WithoutMember(done, room.pendingLeave.value.client);
    assert forall c :: c in room.members ==> JoinOf(r, room, c) == JoinOf(r, done, c);
    assert forall c :: Acked(acks, r, room, c) ==> Acked(acks, r, done, c);
    assert forall c :: Acked(acks, r, done, c) && c in rest.members ==> Acked(acks, r, rest, c);
  }

  /** A room that empties has nothing left in flight, as long as no Leave overtakes a Join. */
  lemma EmptiedSlot(r: RoomId, v: View, acks: Acks, e2: bool)
    requires SlotOk(r, v, acks, e2) && v.room.Some? && v.room.value.pendingLeave.Some?
    requires WithoutMember(v.room.value, v.room.value.pendingLeave.value.client).members == map[]
    ensures SlotOk(r, v.(room := None, leaves := map[], hosts := {}), acks, e2)
  {
    var room := v.room.value;
    var rest := room.members - {room.pendingLeave.value.client};
    assert forall c :: c in room.members ==> c in rest || c == room.pendingLeave.value.client;
  }

  lemma DebitFrame(t: Table, i: InstanceId, r: RoomId, empty: bool, s: RoomId)
    ensures Hosts(DebitWorker(t, i, r, empty).workers, s)
            == if empty && s == r then Hosts(t.workers, s) - {i} else Hosts(t.workers, s)
  {
  }

  /** The view of a room after the result of its Leave. */
  ghost function LeaveResultView(v: View, dwell: nat, now: Instant, left: bool): View
    requires v.room.Some? && v.room.value.pendingLeave.Some?
  {
    var done := v.room.value.(pendingLeave := None);
    var rest := WithoutMember(done, v.room.value.pendingLeave.value.client);
    if !left then v.(room := Some(done), leaves := map[])
    else if rest.members == map[] then v.(room := None, leaves := map[], hosts := {})
    else v.(room := Some(Armed(dwell, rest, now)), leaves := map[])
  }

  lemma LeaveResultSlot(r: RoomId, v: View, dwell: nat, now: Instant, left: bool, acks: Acks, e2: bool)
    requires SlotOk(r, v, acks, e2) && v.room.Some? && v.room.value.pendingLeave.Some?
    ensures SlotOk(r, LeaveResultView(v, dwell, now, left), acks, e2)
  {
    hide SlotOk, Armed;
    LeaveDoneSlot(r, v, dwell, now, acks, e2);
    if WithoutMember(v.room.value, v.room.value.pendingLeave.value.client).members == map[] {
      EmptiedSlot(r, v, acks, e2);
    }
  }

  lemma SfuLeaveSlots(t: Table, q: RequestId, i: InstanceId, result: CommandResult, now: Instant, s: RoomId,
                      acks: Acks, e2: bool)
    requires CommandsOk(t) && q in t.pending && t.pending[q].SfuLeave?
    requires SlotAt(t, s, acks, e2) && SlotAt(t, t.pending[q].room, acks, e2)
    ensures var done := SfuLeaveResult(Forget(t, {q}), i, t.pending[q], result, now);
            done.1.Ok? && SlotAt(done.0, s, acks, e2)
  {
    hide SlotOk, CommandsOk, SfuLeaveResult;
    var p := t.pending[q];
    var r := p.room;
    var t1 := Forget(t, {q});
    SfuLeaveRoom(t, q, acks, e2);
    var room := t.rooms[r];
    var left := p.instance == i && Left(result, p);
    var empty := WithoutMember(room.(pendingLeave := None), p.client).members == map[];
    var t2 := SfuLeaveResult(t1, i, p, result, now).0;
    LeaveResultRooms(t1, i, p, result, now);
    ForgetView(t, {q}, s);
    DebitFrame(t1, i, r, empty, s);
    Reroomed2(t1, t2, s);
    var v := ViewOf(t, s);
    if s == r {
      assert v.upgrades - {q} == v.upgrades && v.joins - {q} == v.joins;
      hide Slot, Hosts, Armed, WithoutMember, DebitWorker, Left;
      LeaveResultSlot(r, v, t.dwell, now, left, acks, e2);
      assert {i} - {i} == {};
      assert ViewOf(t2, r) == LeaveResultView(v, t.dwell, now, left);
    } else {
      ForgetOthersView(t, {q}, s);
      hide Slot, Hosts, Armed, WithoutMember, DebitWorker, Left;
    }
  }

  lemma Reroomed2(t: Table, t': Table, s: RoomId)
    requires t'.pending == t.pending
    ensures ViewOf(t', s) == ViewOf(t, s).(room := RoomAt(t', s), hosts := Hosts(t'.workers, s))
  {
  }
}
