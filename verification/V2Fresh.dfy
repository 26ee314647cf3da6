/** Lifecycle ids: along every run, each Join for a member of a room carries a higher lifecycle id
    than any Join for the same member before it, whatever became of the room in between. */
module V2Fresh {
  import opened Wrappers
  import opened Collections
  import opened Sfu
  import opened V2State
  import opened V2Steps
  import opened V2Rooms
  import opened V2Moves
  import opened V2RoomSteps
  import opened V2Commands

  type Joins = map<RequestId, JoinMember>
  type Lifecycles = map<(RoomId, ClientId), nat>

  /** Every Join ever put in flight, by request id. */
  ghost function JoinsOf(t: Table): Joins {
    map q | q in t.issued && t.issued[q].kind.JoinCommand? :: t.issued[q].kind.join
  }

  ghost predicate SameMember(a: JoinMember, b: JoinMember) {
    a.room == b.room && a.client == b.client
  }

  ghost predicate Increasing(joins: Joins) {
    forall p, q :: p in joins && q in joins && p < q && SameMember(joins[p], joins[q]) ==>
      joins[p].lifecycle < joins[q].lifecycle
  }

  ghost predicate Bounded(joins: Joins, lifecycles: Lifecycles) {
    forall q :: q in joins ==>
      && (joins[q].room, joins[q].client) in lifecycles
      && joins[q].lifecycle <= lifecycles[(joins[q].room, joins[q].client)]
  }

  /** No Join of the member has carried lifecycle id `l` or a later one. */
  ghost predicate Unissued(joins: Joins, r: RoomId, c: ClientId, l: nat) {
    forall q :: q in joins && joins[q].room == r && joins[q].client == c ==> joins[q].lifecycle < l
  }

  ghost predicate MembersBounded(lifecycles: Lifecycles, r: RoomId, members: map<ClientId, Member>) {
    forall c :: c in members ==> (r, c) in lifecycles && members[c].lifecycle <= lifecycles[(r, c)]
  }

  /** The clients that the barrier has still to reach, from place `from` on, have unused ids. */
  ghost predicate BarrierFresh(joins: Joins, r: RoomId, room: Room, from: nat) {
    room.upgrade.Some? ==>
      && NoDuplicates(room.upgrade.value.ordered)
      && forall k :: from <= k < |room.upgrade.value.ordered| && room.upgrade.value.ordered[k] in room.members ==>
           Unissued(joins, r, room.upgrade.value.ordered[k], room.members[room.upgrade.value.ordered[k]].lifecycle)
  }

  ghost function Reached(room: Room): nat {
    if room.upgrade.Some? then room.upgrade.value.next + 1 else 0
  }

  ghost predicate RoomFresh(joins: Joins, lifecycles: Lifecycles, r: RoomId, room: Room) {
    MembersBounded(lifecycles, r, room.members) && BarrierFresh(joins, r, room, Reached(room))
  }

  ghost predicate OptFresh(joins: Joins, lifecycles: Lifecycles, r: RoomId, a: Option<Room>) {
    a.Some? ==> RoomFresh(joins, lifecycles, r, a.value)
  }

  ghost predicate FreshOk(t: Table) {
    && Increasing(JoinsOf(t)) && Bounded(JoinsOf(t), t.lifecycles)
    && forall r: RoomId :: OptFresh(JoinsOf(t), t.lifecycles, r, RoomAt(t, r))
  }

  // ---- operations that issue no Join and draw no lifecycle id ----

  ghost predicate SameJoins(t: Table, t': Table) {
    JoinsOf(t') == JoinsOf(t) && t'.lifecycles == t.lifecycles
  }

  lemma SameIssued(t: Table, t': Table)
    requires t'.issued == t.issued && t'.lifecycles == t.lifecycles
    ensures SameJoins(t, t')
  {
  }

  lemma IssueSame(t: Table, i: InstanceId, connection: ConnectionId, kind: CommandKind, p: PendingCommand)
    requires CommandsOk(t) && !kind.JoinCommand?
    ensures SameJoins(t, IssueCommand(t, i, connection, kind, p))
  {
    assert t.nextRequest !in t.issued;
  }

  lemma CleanupSame(t: Table, r: RoomId, i: InstanceId, clients: seq<ClientId>, epoch: nat)
    requires CommandsOk(t)
    ensures SameJoins(t, Cleanup(t, r, i, clients, epoch).0)
  {
    hide CommandsOk, EmitsFresh, JoinsOf, Cleanup, IssueCommand;
    forall t0: Table, connection, leave: LeaveMember | CommandsOk(t0) && SameJoins(t, t0)
      ensures var t1 := IssueCommand(t0, i, connection, LeaveCommand(leave), CleanupPending);
              CommandsOk(t1) && SameJoins(t, t1)
    {
      IssueSame(t0, i, connection, LeaveCommand(leave), CleanupPending);
      IssueLog(t0, i, connection, LeaveCommand(leave), CleanupPending);
    }
    CleanupKeeps(t0 => CommandsOk(t0) && SameJoins(t, t0), t, r, i, clients, epoch);
  }

  lemma ResyncRoomSame(t: Table, i: InstanceId, connection: ConnectionId, r: RoomId, commands: seq<RequestId>)
    requires CommandsOk(t)
    ensures SameJoins(t, ResyncRoom(t, i, connection, r, commands))
  {
    hide CommandsOk, JoinsOf, Replay, Projection, IssueCommand;
    if r in t.rooms {
      IssueSame(t, i, connection, SyncCommand(SyncRoom(r, t.rooms[r].assignmentEpoch, Projection(t.rooms[r]))),
                SyncPending(i, r, t.rooms[r].assignmentEpoch, Replay(t, i, r, commands)));
    }
  }

  lemma ResyncSame(t: Table, i: InstanceId, connection: ConnectionId, rooms: seq<RoomId>, commands: seq<RequestId>)
    requires CommandsOk(t)
    ensures SameJoins(t, ResyncRooms(t, i, connection, rooms, commands))
  {
    hide CommandsOk, EmitsFresh, JoinsOf, ResyncRoom, ResyncRooms;
    forall t0: Table, r: RoomId | CommandsOk(t0) && SameJoins(t, t0)
      ensures var t1 := ResyncRoom(t0, i, connection, r, commands); CommandsOk(t1) && SameJoins(t, t1)
    {
      ResyncRoomSame(t0, i, connection, r, commands);
      ResyncRoomLog(t0, i, connection, r, commands);
    }
    ResyncKeeps(t0 => CommandsOk(t0) && SameJoins(t, t0), t, i, connection, rooms, commands);
  }

  lemma RegisterWorkerSame(t: Table, connection: ConnectionId, i: InstanceId, request: RequestId, capacity: Capacity,
                           rooms: seq<RoomId>, commands: seq<RequestId>)
    requires CommandsOk(t)
    ensures SameJoins(t, RegisterWorker(t, connection, i, request, capacity, rooms, commands))
  {
    hide CommandsOk, EmitsFresh, JoinsOf;
    RegisterWorkerLog(t, connection, i, request, capacity, rooms, commands);
    var session := OpenSession(t, connection, i, request, capacity);
    SameIssued(t, session);
    SameIssued(t, Push(t, SfuOut(RegistrationError(connection, request, WorkerError("INVALID_REQUEST", false)))));
    hide OpenSession;
    ResyncSame(session, i, connection, rooms, commands);
  }

  lemma IssueSfuLeaveSame(t: Table, r: RoomId, c: ClientId, ticket: Option<Ticket>, reason: LeaveReason)
    requires CommandsOk(t)
    ensures var left := IssueSfuLeave(t, r, c, ticket, reason); left.Some? ==> SameJoins(t, left.value)
  {
    hide CommandsOk, EmitsFresh, JoinsOf;
    if IssueSfuLeave(t, r, c, ticket, reason).Some? {
      var room := t.rooms[r];
      var t1 := PutRoom(t, r, room.(pendingLeave := Some(PendingLeave(ticket, c))));
      QuietLog(t, t1);
      SameIssued(t, t1);
      var i := room.instance.value;
      var lifecycle := room.members[c].lifecycle;
      IssueSame(t1, i, Connection(t, i).value,
                LeaveCommand(LeaveMember(r, c, lifecycle, room.assignmentEpoch, reason)),
                SfuLeave(i, r, c, lifecycle, room.assignmentEpoch));
    }
  }

  lemma LeaveOrWaitSame(t: Table, now: Instant, r: RoomId, c: ClientId)
    requires CommandsOk(t)
    ensures SameJoins(t, LeaveOrWait(t, now, r, c)) && SameJoins(t, SetDeadline(t, r, c, now + t.grace))
  {
    hide CommandsOk, IssueSfuLeave, JoinsOf;
    IssueSfuLeaveSame(t, r, c, None, Disconnected);
    SameIssued(t, SetDeadline(t, r, c, now + t.grace));
  }

  lemma DeregisterSame(t: Table, now: Instant, r: RoomId, c: ClientId)
    requires CommandsOk(t)
    ensures SameJoins(t, Deregister(t, now, r, c))
  {
    hide CommandsOk, LeaveOrWait, SetDeadline, JoinsOf, EmitsFresh;
    if r in t.rooms && c in t.rooms[r].members {
      var t1 := PutRoom(t, r, WithMember(t.rooms[r], c, t.rooms[r].members[c].(registered := false)));
      QuietLog(t, t1);
      SameIssued(t, t1);
      LeaveOrWaitSame(t1, now, r, c);
    }
  }

  lemma SendSame(t: Table, r: RoomId, c: ClientId, epoch: nat, message: string, order: seq<ClientId>)
    requires CommandsOk(t)
    ensures SameJoins(t, Send(t, r, c, epoch, message, order).0)
  {
    hide CommandsOk, JoinsOf, IssueCommand;
    SameIssued(t, t);
    if r in t.rooms && c in t.rooms[r].members {
      SameIssued(t, Enqueue(t, r, c, message).0);
      hide Enqueue;
      var room := t.rooms[r];
      if RoomConnection(t, room).Some? {
        var i := room.instance.value;
        var signal := Signal(r, c, room.members[c].lifecycle, room.assignmentEpoch, message, None);
        IssueSame(t, i, Connection(t, i).value, SignalCommand(signal), SignalPending);
      }
    }
  }

  lemma RemoveSame(t: Table, ticket: Ticket, r: RoomId, c: ClientId, token: string)
    requires CommandsOk(t)
    ensures SameJoins(t, Remove(t, ticket, r, c, token).0)
  {
    hide CommandsOk, JoinsOf, IssueSfuLeave, Survivors, PutOrReap, PromotionOf;
    IssueSfuLeaveSame(t, r, c, Some(ticket), User);
    if r in t.rooms {
      PutOrReapSame(t, r, WithoutMember(t.rooms[r], c));
      PutOrReapSame(t, r, Survivors(WithoutMember(t.rooms[r], c)));
    }
  }

  lemma PutOrReapSame(t: Table, r: RoomId, room: Room)
    ensures SameJoins(t, PutOrReap(t, r, room))
  {
  }

  lemma EventLifecycles(t: Table, connection: ConnectionId, i: InstanceId, event: Event)
    ensures HandleEvent(t, connection, i, event).0.lifecycles == t.lifecycles
  {
    hide Remember, FreshEvent;
    if i in t.workers && t.workers[i].connection == Some(connection) && event.id != 0
       && event.id !in t.workers[i].seen {
      FreshEventLifecycles(PutWorker(t, i, Remember(t.workers[i], event.id)), connection, i, event);
    }
  }

  lemma FreshEventLifecycles(t: Table, connection: ConnectionId, i: InstanceId, event: Event)
    requires i in t.workers
    ensures FreshEvent(t, connection, i, event).0.lifecycles == t.lifecycles
  {
    hide RelaySignal, FailNamedRoom;
    if event.kind.SignalEvent? { SignalLifecycles(t, connection, i, event.id, event.kind.signal); }
    if event.kind.FailureEvent? { FailLifecycles(t, event.kind.room, event.kind.error.reason); }
  }

  lemma SignalLifecycles(t: Table, connection: ConnectionId, i: InstanceId, id: nat, signal: Signal)
    ensures RelaySignal(t, connection, i, id, signal).0.lifecycles == t.lifecycles
  {
  }

  lemma FailLifecycles(t: Table, r: Option<RoomId>, reason: string)
    ensures FailNamedRoom(t, r, reason).lifecycles == t.lifecycles
  {
  }

  lemma EventSame(t: Table, connection: ConnectionId, i: InstanceId, event: Event)
    ensures SameJoins(t, HandleEvent(t, connection, i, event).0)
  {
    hide HandleEvent;
    EventQuiet(t, connection, i, event);
    EventLifecycles(t, connection, i, event);
  }

  lemma AbortSame(t: Table, r: RoomId, reason: string)
    requires CommandsOk(t)
    ensures SameJoins(t, AbortUpgrade(t, r, reason).0)
  {
    hide CommandsOk, EmitsFresh, Cleanup, WithoutMember, JoinsOf;
    if r in t.rooms && t.rooms[r].upgrade.Some? {
      var room := t.rooms[r];
      var upgrade := room.upgrade.value;
      var t1 := PutRoom(t, r, WithoutMember(room, upgrade.joining).(upgrade := None, mode := P2p, instance := None));
      SameIssued(t, t1);
      if room.instance.Some? {
        var i := room.instance.value;
        var t2 := Unassign(t1, r, i, 3);
        QuietLog(t, t2);
        SameIssued(t, t2);
        CleanupSame(t2, r, i, upgrade.joined, room.assignmentEpoch);
        var t3 := Cleanup(t2, r, i, upgrade.joined, room.assignmentEpoch).0;
        hide Unassign;
        SameIssued(t3, AbortUpgrade(t, r, reason).0);
      }
    }
  }

  lemma SfuJoinLifecycles(t: Table, i: InstanceId, p: PendingCommand, result: CommandResult)
    requires p.SfuJoin?
    ensures SfuJoinResult(t, i, p, result).0.lifecycles == t.lifecycles
  {
    hide Joined, WithoutMember, ErrorReason, CreditWorker;
    var r := p.join.room;
    if r in t.rooms { CreditLifecycles(PutRoom(t, r, t.rooms[r].(pendingJoin := None)), i); }
  }

  lemma CreditLifecycles(t: Table, i: InstanceId)
    ensures CreditWorker(t, i).lifecycles == t.lifecycles
  {
  }

  lemma SfuLeaveLifecycles(t: Table, i: InstanceId, p: PendingCommand, result: CommandResult, now: Instant)
    requires p.SfuLeave?
    ensures SfuLeaveResult(t, i, p, result, now).0.lifecycles == t.lifecycles
  {
    hide Left, Armed, WithoutMember, ErrorReason, RemovalNotice, DebitWorker;
    DebitKeeps(t, i, p.room, true);
    DebitKeeps(t, i, p.room, false);
  }

  lemma SfuResultSame(t: Table, i: InstanceId, p: PendingCommand, result: CommandResult, now: Instant)
    ensures p.SfuJoin? ==> SameJoins(t, SfuJoinResult(t, i, p, result).0)
    ensures p.SfuLeave? ==> SameJoins(t, SfuLeaveResult(t, i, p, result, now).0)
  {
    hide SfuJoinResult, SfuLeaveResult, JoinsOf;
    if p.SfuJoin? {
      SfuJoinLifecycles(t, i, p, result);
      SfuJoinQuiet(t, i, p, result);
      SameIssued(t, SfuJoinResult(t, i, p, result).0);
    }
    if p.SfuLeave? {
      SfuLeaveLifecycles(t, i, p, result, now);
      SfuLeaveQuiet(t, i, p, result, now);
      SameIssued(t, SfuLeaveResult(t, i, p, result, now).0);
    }
  }

  lemma SyncSame(t: Table, connection: ConnectionId, i: InstanceId, p: PendingCommand, result: CommandResult)
    requires p.SyncPending?
    ensures SameJoins(t, SyncResult(t, connection, i, p, result).0)
  {
    PushCommandsKeeps(t, connection, p.replay);
    hide PushCommands;
  }

  // ---- timeouts ----

  lemma {:induction false} ExpireRoomsSame(t: Table, rooms: seq<RoomId>)
    requires CommandsOk(t)
    ensures SameJoins(t, ExpireRooms(t, rooms))
    decreases |rooms|
  {
    hide CommandsOk, EmitsFresh, JoinsOf, ExpireRoom;
    if rooms != [] {
      ExpireRoomSame(t, rooms[0]);
      ExpireRoomLog(t, rooms[0]);
      ExpireRoomsSame(ExpireRoom(t, rooms[0]), rooms[1..]);
    } else {
      SameIssued(t, t);
    }
  }

  lemma ExpireRoomSame(t: Table, r: RoomId)
    requires CommandsOk(t)
    ensures SameJoins(t, ExpireRoom(t, r))
  {
    hide CommandsOk, JoinsOf, AbortUpgrade, ExpiredRoom, ExpiryNotices;
    AbortSame(t, r, "WORKER_UNAVAILABLE");
    if !(r in t.rooms && t.rooms[r].mode == Upgrading) { SameIssued(t, ExpireRoom(t, r)); }
  }

  lemma {:induction false} ExpireWorkersSame(t: Table, workers: seq<InstanceId>, hosted: map<InstanceId, seq<RoomId>>)
    requires CommandsOk(t)
    ensures SameJoins(t, ExpireWorkers(t, workers, hosted))
    decreases |workers|
  {
    hide CommandsOk, EmitsFresh, JoinsOf, ExpireRooms;
    if workers != [] {
      var rooms := Listing(hosted, workers[0]);
      ExpireRoomsSame(t, rooms);
      ExpireWorkerLog(t, workers[0], rooms);
      SameIssued(ExpireRooms(t, rooms), ExpireWorker(t, workers[0], rooms));
      hide ExpireWorker;
      ExpireWorkersSame(ExpireWorker(t, workers[0], rooms), workers[1..], hosted);
    }
  }

  lemma DowngradeSame(t: Table, r: RoomId, order: seq<ClientId>)
    requires CommandsOk(t) && r in t.rooms && t.rooms[r].members != map[]
    ensures SameJoins(t, CommitDowngrade(t, r, order))
  {
    hide CommandsOk, EmitsFresh, Cleanup, DowngradedRoom, JoinsOf;
    var room := t.rooms[r];
    var t1 := PutRoom(t, r, DowngradedRoom(room));
    SameIssued(t, t1);
    if room.instance.Some? {
      var released := Unassign(t1, r, room.instance.value, |room.members|);
      QuietLog(t, released);
      SameIssued(t, released);
      CleanupSame(released, r, room.instance.value, order, room.assignmentEpoch);
      hide Unassign;
    }
    SameIssued(ReleaseWorker(t1, r, room, order), CommitDowngrade(t, r, order));
  }

  lemma SweepRoomSame(t: Table, now: Instant, r: RoomId, order: seq<ClientId>)
    requires CommandsOk(t)
    ensures SameJoins(t, SweepRoom(t, now, r, order).0)
  {
    hide CommandsOk, CommitDowngrade, LeaveOrWait, Survivors, DueMembers, FirstDue, JoinsOf, PutOrReap, PromotionOf;
    SameIssued(t, t);
    if r in t.rooms {
      var room := t.rooms[r];
      if DowngradeEligible(room) { DowngradeSame(t, r, order); }
      hide DowngradeEligible;
      SameIssued(t, PutRoom(t, r, room.(downgradeDeadline := None)));
      var c := FirstDue(room.members, order, now);
      if c.Some? { LeaveOrWaitSame(t, now, r, c.value); }
      var kept := room.(members := room.members - DueMembers(room, now));
      PutOrReapSame(t, r, kept);
      PutOrReapSame(t, r, Survivors(kept));
    }
  }

  lemma {:induction false} SweepRoomsSame(t: Table, now: Instant, rooms: seq<RoomId>, members: map<RoomId, seq<ClientId>>)
    requires CommandsOk(t)
    ensures SameJoins(t, SweepRooms(t, now, rooms, members).0)
    decreases |rooms|
  {
    hide CommandsOk, EmitsFresh, JoinsOf, SweepRoom;
    if rooms != [] {
      var order := Listing(members, rooms[0]);
      SweepRoomSame(t, now, rooms[0], order);
      SweepRoomLog(t, now, rooms[0], order);
      SweepRoomsSame(SweepRoom(t, now, rooms[0], order).0, now, rooms[1..], members);
    }
  }

  lemma TimeoutSame(t: Table, now: Instant, s: Schedule)
    requires CommandsOk(t)
    ensures SameJoins(t, HandleTimeout(t, now, s).0)
  {
    hide CommandsOk, EmitsFresh, JoinsOf, ExpireWorkers, SweepRooms;
    ExpireWorkersSame(t, s.workers, s.hosted);
    ExpireWorkersLog(t, s.workers, s.hosted);
    SweepRoomsSame(ExpireWorkers(t, s.workers, s.hosted), now, s.rooms, s.members);
  }

  // ---- what the moves of such a step keep ----

  /** Moves that draw no lifecycle id and advance no barrier. */
  ghost predicate Steady(m: Move) {
    !m.Created? && !m.Paired? && !m.JoinBegun? && !m.UpgradeBegun? && !m.BarrierAdvanced?
  }

  /** No new members, no new ids, and the same barrier or none. */
  ghost predicate Shrinks(a: Room, b: Room) {
    && b.members.Keys <= a.members.Keys
    && (forall c :: c in b.members ==> b.members[c].lifecycle == a.members[c].lifecycle)
    && (b.upgrade == a.upgrade || b.upgrade.None?)
  }

  lemma SteadyShrinks(a: Option<Room>, m: Move)
    requires Enabled(a, m) && Steady(m)
    ensures a.Some? && (Moved(a, m).Some? ==> Shrinks(a.value, Moved(a, m).value))
  {
    hide Newcomer, Survivors, Armed, ExpiredRoom, DowngradedRoom, CommittedRoom, AbortedRoom, RegisteredMembers,
         BarrierRoom, DowngradeEligible;
    if m.Departed? {
      DepartedShrinks(a.value, m.gone);
    } else if m.LeaveEnded? {
      ArmedShrinks(m.dwell, WithoutMember(a.value.(pendingLeave := None), m.client), m.now);
    } else {
      OtherShrinks(a, m);
    }
  }

  lemma OtherShrinks(a: Option<Room>, m: Move)
    requires Enabled(a, m) && Steady(m) && !m.Departed? && !m.LeaveEnded?
    ensures a.Some? && (Moved(a, m).Some? ==> Shrinks(a.value, Moved(a, m).value))
  {
    hide Newcomer, Survivors, Armed, BarrierRoom, DowngradeEligible;
  }

  lemma DepartedShrinks(room: Room, gone: set<ClientId>)
    ensures Shrinks(room, Survivors(room.(members := room.members - gone)))
  {
  }

  lemma ArmedShrinks(dwell: nat, room: Room, now: Instant)
    ensures Armed(dwell, room, now).members == room.members && Armed(dwell, room, now).upgrade == room.upgrade
  {
  }

  lemma ShrinksFresh(joins: Joins, lifecycles: Lifecycles, r: RoomId, a: Room, b: Room)
    requires RoomFresh(joins, lifecycles, r, a) && Shrinks(a, b)
    ensures RoomFresh(joins, lifecycles, r, b)
  {
  }

  lemma {:induction false} SteadyTrail(joins: Joins, lifecycles: Lifecycles, r: RoomId, a: Option<Room>,
                                       trail: seq<Move>, b: Option<Room>)
    requires Follows(a, trail, b) && (forall m :: m in trail ==> Steady(m)) && OptFresh(joins, lifecycles, r, a)
    ensures OptFresh(joins, lifecycles, r, b)
    decreases |trail|
  {
    hide Enabled, Moved, RoomFresh, Shrinks, Steady;
    if trail != [] {
      assert trail[0] in trail && Steady(trail[0]);
      SteadyShrinks(a, trail[0]);
      if Moved(a, trail[0]).Some? { ShrinksFresh(joins, lifecycles, r, a.value, Moved(a, trail[0]).value); }
      assert forall m :: m in trail[1..] ==> m in trail;
      SteadyTrail(joins, lifecycles, r, Moved(a, trail[0]), trail[1..], b);
    }
  }

  // ---- steps that issue Joins ----

  lemma JoinsAfterIssue(t: Table, i: InstanceId, connection: ConnectionId, join: JoinMember, p: PendingCommand)
    requires HistoryShape(t)
    ensures JoinsOf(IssueCommand(t, i, connection, JoinCommand(join), p)) == JoinsOf(t)[t.nextRequest := join]
    ensures forall q :: q in JoinsOf(t) ==> q < t.nextRequest
  {
  }

  /** A Join whose id is above all before it keeps the order, and what other barriers rely on. */
  lemma AddedJoin(joins: Joins, lifecycles: Lifecycles, q: RequestId, join: JoinMember)
    requires Increasing(joins) && Bounded(joins, lifecycles)
    requires Unissued(joins, join.room, join.client, join.lifecycle)
    requires (join.room, join.client) in lifecycles && join.lifecycle <= lifecycles[(join.room, join.client)]
    requires forall p :: p in joins ==> p < q
    ensures Increasing(joins[q := join]) && Bounded(joins[q := join], lifecycles)
  {
  }

  lemma OtherRoomFresh(joins: Joins, lifecycles: Lifecycles, q: RequestId, join: JoinMember, s: RoomId, a: Option<Room>)
    requires OptFresh(joins, lifecycles, s, a) && s != join.room && q !in joins
    ensures OptFresh(joins[q := join], lifecycles, s, a)
  {
  }

  /** Drawing ids for members of room `r` leaves the other rooms alone. */
  ghost predicate DrawnFor(lifecycles: Lifecycles, drawn: Lifecycles, r: RoomId) {
    && (forall k :: k in lifecycles ==> k in drawn && lifecycles[k] <= drawn[k])
    && (forall k :: k in drawn && k.0 != r ==> k in lifecycles && drawn[k] == lifecycles[k])
  }

  lemma DrawnBounded(joins: Joins, lifecycles: Lifecycles, drawn: Lifecycles, r: RoomId)
    requires Bounded(joins, lifecycles) && DrawnFor(lifecycles, drawn, r)
    ensures Bounded(joins, drawn)
    ensures forall s: RoomId, a :: OptFresh(joins, lifecycles, s, a) ==> OptFresh(joins, drawn, s, a)
  {
    forall s: RoomId, a | OptFresh(joins, lifecycles, s, a) ensures OptFresh(joins, drawn, s, a) {
    }
  }

  lemma NextUnissued(t: Table, r: RoomId, c: ClientId)
    requires Bounded(JoinsOf(t), t.lifecycles)
    ensures Unissued(JoinsOf(t), r, c, NextLifecycle(t, r, c))
  {
  }

  lemma DrawOne(t: Table, r: RoomId, c: ClientId)
    ensures DrawnFor(t.lifecycles, DrawLifecycle(t, r, c).lifecycles, r)
  {
  }

  lemma CreateFresh(t: Table, now: Instant, r: RoomId, c: ClientId, token: string)
    requires FreshOk(t) && r !in t.rooms
    ensures FreshOk(CreateRoom(t, now, r, c, token).0)
  {
    hide Increasing, Bounded;
    var t' := CreateRoom(t, now, r, c, token).0;
    DrawOne(t, r, c);
    DrawnBounded(JoinsOf(t), t.lifecycles, t'.lifecycles, r);
    forall s: RoomId ensures OptFresh(JoinsOf(t'), t'.lifecycles, s, RoomAt(t', s)) {
      assert OptFresh(JoinsOf(t), t.lifecycles, s, RoomAt(t, s));
      assert JoinsOf(t') == JoinsOf(t);
    }
  }

  /** A newcomer with the id just drawn joins a room without a barrier. */
  lemma AddedFresh(joins: Joins, lifecycles: Lifecycles, drawn: Lifecycles, r: RoomId, a: Room, b: Room,
                   c: ClientId, member: Member)
    requires RoomFresh(joins, lifecycles, r, a) && a.upgrade.None? && DrawnFor(lifecycles, drawn, r)
    requires b.members == a.members[c := member] && b.upgrade.None?
    requires (r, c) in drawn && member.lifecycle <= drawn[(r, c)]
    ensures RoomFresh(joins, drawn, r, b)
  {
  }

  lemma AdmitToP2pFresh(t: Table, now: Instant, r: RoomId, c: ClientId, token: string)
    requires FreshOk(t) && r in t.rooms && t.rooms[r].upgrade.None?
    ensures FreshOk(AdmitToP2p(t, now, r, c, token).0)
  {
    var t' := AdmitToP2p(t, now, r, c, token).0;
    var member := NewMember(now, t.grace, token, false, NextLifecycle(t, r, c));
    DrawOne(t, r, c);
    DrawnBounded(JoinsOf(t), t.lifecycles, t'.lifecycles, r);
    assert JoinsOf(t') == JoinsOf(t);
    hide Increasing, Bounded, RoomFresh, DrawnFor, JoinsOf;
    forall s: RoomId ensures OptFresh(JoinsOf(t'), t'.lifecycles, s, RoomAt(t', s)) {
      assert OptFresh(JoinsOf(t), t.lifecycles, s, RoomAt(t, s));
      if s == r { AddedFresh(JoinsOf(t), t.lifecycles, t'.lifecycles, r, t.rooms[r], t'.rooms[r], c, member); }
    }
  }

  lemma NoBarrierKept(joins: Joins, lifecycles: Lifecycles, q: RequestId, join: JoinMember, r: RoomId, room: Room)
    requires RoomFresh(joins, lifecycles, r, room) && room.upgrade.None?
    ensures RoomFresh(joins[q := join], lifecycles, r, room)
  {
  }

  lemma AdmitToSfuFresh(t: Table, ticket: Ticket, now: Instant, r: RoomId, c: ClientId, token: string)
    requires FreshOk(t) && HistoryShape(t) && r in t.rooms && t.rooms[r].upgrade.None?
    ensures FreshOk(AdmitToSfu(t, ticket, now, r, c, token).0)
  {
    var room := t.rooms[r];
    if RoomConnection(t, room).Some? {
      var n := NextLifecycle(t, r, c);
      var member := NewMember(now, t.grace, token, false, n);
      var room' := WithMember(room, c, member).(pendingJoin := Some(PendingJoin(ticket, c)), downgradeDeadline := None);
      var drawn := DrawLifecycle(t, r, c).lifecycles;
      var t1 := PutRoom(DrawLifecycle(t, r, c), r, room');
      var i := room.instance.value;
      var join := JoinMember(r, c, n, room.assignmentEpoch);
      var t' := AdmitToSfu(t, ticket, now, r, c, token).0;
      DrawOne(t, r, c);
      DrawnBounded(JoinsOf(t), t.lifecycles, drawn, r);
      NextUnissued(t, r, c);
      JoinsAfterIssue(t1, i, Connection(t, i).value, join, SfuJoin(i, join));
      assert JoinsOf(t1) == JoinsOf(t);
      hide JoinsOf, HistoryShape, DrawnFor;
      AddedJoin(JoinsOf(t), drawn, t.nextRequest, join);
      hide Increasing, Bounded, RoomFresh;
      forall s: RoomId ensures OptFresh(JoinsOf(t'), t'.lifecycles, s, RoomAt(t', s)) {
        assert OptFresh(JoinsOf(t), t.lifecycles, s, RoomAt(t, s));
        if s == r {
          AddedFresh(JoinsOf(t), t.lifecycles, drawn, r, room, room', c, member);
          NoBarrierKept(JoinsOf(t), drawn, t.nextRequest, join, r, room');
        } else {
          OtherRoomFresh(JoinsOf(t), drawn, t.nextRequest, join, s, RoomAt(t, s));
        }
      }
    }
  }

  /** All of `FreshOk` when the barrier of room `r` still has an unissued Join at its next place. */
  ghost predicate ReadyToIssue(t: Table, r: RoomId) {
    && Increasing(JoinsOf(t)) && Bounded(JoinsOf(t), t.lifecycles)
    && (forall s: RoomId :: OptFresh(JoinsOf(t), t.lifecycles, s, RoomAt(t, s)))
    && (r in t.rooms && t.rooms[r].upgrade.Some? ==>
          BarrierFresh(JoinsOf(t), r, t.rooms[r], t.rooms[r].upgrade.value.next))
  }

  lemma BarrierAfterIssue(joins: Joins, lifecycles: Lifecycles, q: RequestId, join: JoinMember, r: RoomId, room: Room)
    requires RoomFresh(joins, lifecycles, r, room) && room.upgrade.Some? && q !in joins
    requires room.upgrade.value.next < |room.upgrade.value.ordered|
    requires join.room == r && join.client == room.upgrade.value.ordered[room.upgrade.value.next]
    ensures RoomFresh(joins[q := join], lifecycles, r, room)
  {
    var ordered := room.upgrade.value.ordered;
    forall k | Reached(room) <= k < |ordered| && ordered[k] in room.members
      ensures Unissued(joins[q := join], r, ordered[k], room.members[ordered[k]].lifecycle)
    {
      assert ordered[k] != join.client;
    }
  }

  lemma IssueNextFresh(t: Table, r: RoomId)
    requires ReadyToIssue(t, r) && HistoryShape(t)
    ensures FreshOk(t) && (IssueNextUpgradeJoin(t, r).Ok? ==> FreshOk(IssueNextUpgradeJoin(t, r).value))
  {
    if IssueNextUpgradeJoin(t, r).Ok? {
      var room := t.rooms[r];
      var c := room.upgrade.value.ordered[room.upgrade.value.next];
      var i := room.instance.value;
      var join := JoinMember(r, c, room.members[c].lifecycle, room.assignmentEpoch);
      var t' := IssueNextUpgradeJoin(t, r).value;
      JoinsAfterIssue(t, i, Connection(t, i).value, join, UpgradeJoin(i, join));
      assert OptFresh(JoinsOf(t), t.lifecycles, r, RoomAt(t, r));
      assert t'.lifecycles == t.lifecycles && t'.rooms == t.rooms;
      hide JoinsOf, HistoryShape, IssueNextUpgradeJoin;
      AddedJoin(JoinsOf(t), t.lifecycles, t.nextRequest, join);
      hide Increasing, Bounded, BarrierFresh;
      forall s: RoomId ensures OptFresh(JoinsOf(t'), t'.lifecycles, s, RoomAt(t', s)) {
        assert OptFresh(JoinsOf(t), t.lifecycles, s, RoomAt(t, s));
        if s == r { BarrierAfterIssue(JoinsOf(t), t.lifecycles, t.nextRequest, join, r, room); }
        else { OtherRoomFresh(JoinsOf(t), t.lifecycles, t.nextRequest, join, s, RoomAt(t, s)); }
      }
    }
  }

  lemma DrawMany(t: Table, r: RoomId, cs: set<ClientId>)
    ensures DrawnFor(t.lifecycles, FreshLifecycles(t, r, cs), r)
    ensures forall c :: c in cs ==> (r, c) in FreshLifecycles(t, r, cs)
                                    && FreshLifecycles(t, r, cs)[(r, c)] == NextLifecycle(t, r, c)
  {
    var drawn := FreshLifecycles(t, r, cs);
    forall k | k in t.lifecycles ensures k in drawn && t.lifecycles[k] <= drawn[k] {
      if k.0 == r && k.1 in cs { assert drawn[k] == NextLifecycle(t, r, k.1); }
    }
  }

  /** At the barrier every member carries the id just drawn for it. */
  lemma BarrierLabels(t: Table, ticket: Ticket, now: Instant, r: RoomId, c: ClientId, token: string, i: InstanceId)
    requires r in t.rooms && c !in t.rooms[r].members
    ensures var room := UpgradingRoom(t, ticket, now, r, c, token, i);
            && room.members.Keys == t.rooms[r].members.Keys + {c}
            && (forall d :: d in room.members ==> room.members[d].lifecycle == NextLifecycle(t, r, d))
            && room.upgrade == Some(Upgrade(ticket, c, SortedSeq(t.rooms[r].members.Keys) + [c], [], 0))
  {
    hide NextLifecycle;
  }

  lemma OrderedOnce(existing: set<ClientId>, c: ClientId)
    requires c !in existing
    ensures NoDuplicates(SortedSeq(existing) + [c])
  {
    SortedSeqLists(existing);
  }

  /** A barrier begins with nothing but unused ids. */
  lemma BarrierBeginsFresh(t: Table, ticket: Ticket, now: Instant, r: RoomId, c: ClientId, token: string, i: InstanceId)
    requires Bounded(JoinsOf(t), t.lifecycles) && r in t.rooms && c !in t.rooms[r].members
    ensures var room := UpgradingRoom(t, ticket, now, r, c, token, i);
            && BarrierFresh(JoinsOf(t), r, room, 0) && BarrierFresh(JoinsOf(t), r, room, Reached(room))
            && room.upgrade.Some? && room.upgrade.value.next == 0
            && MembersBounded(FreshLifecycles(t, r, t.rooms[r].members.Keys + {c}), r, room.members)
  {
    hide JoinsOf, FreshLifecycles, NextLifecycle, UpgradingRoom, Bounded, Unissued, NoDuplicates;
    var existing := t.rooms[r].members.Keys;
    var room := UpgradingRoom(t, ticket, now, r, c, token, i);
    BarrierLabels(t, ticket, now, r, c, token, i);
    OrderedOnce(existing, c);
    DrawMany(t, r, existing + {c});
    forall d | d in room.members ensures Unissued(JoinsOf(t), r, d, room.members[d].lifecycle) {
      NextUnissued(t, r, d);
    }
  }

  lemma BeginFields(t: Table, ticket: Ticket, now: Instant, r: RoomId, c: ClientId, token: string, i: InstanceId)
    requires r in t.rooms && i in t.workers
    ensures var begun := BeginUpgrade(t, ticket, now, r, c, token, i);
            && begun.rooms == t.rooms[r := UpgradingRoom(t, ticket, now, r, c, token, i)]
            && begun.lifecycles == FreshLifecycles(t, r, t.rooms[r].members.Keys + {c})
            && begun.issued == t.issued && begun.unacked == t.unacked && begun.nextRequest == t.nextRequest
  {
    hide UpgradingRoom, FreshLifecycles;
  }

  lemma SameHistory(t: Table, t': Table)
    requires HistoryShape(t)
    requires t'.issued == t.issued && t'.unacked == t.unacked && t'.nextRequest == t.nextRequest
    ensures HistoryShape(t') && JoinsOf(t') == JoinsOf(t)
  {
    assert forall command :: IsIssued(t, command) == IsIssued(t', command);
  }

  lemma BeginUpgradeFresh(t: Table, ticket: Ticket, now: Instant, r: RoomId, c: ClientId, token: string, i: InstanceId)
    requires FreshOk(t) && HistoryShape(t) && r in t.rooms && c !in t.rooms[r].members && i in t.workers
    ensures var begun := BeginUpgrade(t, ticket, now, r, c, token, i);
            HistoryShape(begun) && ReadyToIssue(begun, r)
  {
    hide UpgradingRoom, FreshLifecycles, BeginUpgrade, Increasing, Bounded, BarrierFresh, MembersBounded, DrawnFor,
         JoinsOf, HistoryShape;
    var begun := BeginUpgrade(t, ticket, now, r, c, token, i);
    BeginFields(t, ticket, now, r, c, token, i);
    SameHistory(t, begun);
    DrawMany(t, r, t.rooms[r].members.Keys + {c});
    DrawnBounded(JoinsOf(t), t.lifecycles, begun.lifecycles, r);
    BarrierBeginsFresh(t, ticket, now, r, c, token, i);
    forall s: RoomId ensures OptFresh(JoinsOf(begun), begun.lifecycles, s, RoomAt(begun, s)) {
      assert OptFresh(JoinsOf(t), t.lifecycles, s, RoomAt(t, s));
    }
  }

  lemma StartUpgradeFresh(t: Table, ticket: Ticket, now: Instant, r: RoomId, c: ClientId, token: string, i: InstanceId)
    requires FreshOk(t) && HistoryShape(t) && r in t.rooms && c !in t.rooms[r].members && i in t.workers
    ensures FreshOk(StartUpgrade(t, ticket, now, r, c, token, i).0)
  {
    hide FreshOk, HistoryShape, BeginUpgrade, ReadyToIssue, IssueNextUpgradeJoin;
    BeginUpgradeFresh(t, ticket, now, r, c, token, i);
    IssueNextFresh(BeginUpgrade(t, ticket, now, r, c, token, i), r);
  }

  lemma AdmitFresh(t: Table, ticket: Ticket, now: Instant, r: RoomId, c: ClientId, token: string)
    requires FreshOk(t) && CommandsOk(t) && (r in t.rooms ==> RoomShape(t.rooms[r]))
    ensures FreshOk(Admit(t, ticket, now, r, c, token).0)
  {
    if r !in t.rooms {
      CreateFresh(t, now, r, c, token);
    } else if c !in t.rooms[r].members {
      var room := t.rooms[r];
      if room.mode == Sfu {
        AdmitToSfuFresh(t, ticket, now, r, c, token);
      } else if room.mode == P2p {
        AdmitToP2pFresh(t, now, r, c, token);
        if SelectWorker(t, 3).Some? { StartUpgradeFresh(t, ticket, now, r, c, token, SelectWorker(t, 3).value); }
      }
    }
    hide FreshOk, CommandsOk, RoomShape, CreateRoom, AdmitToSfu, AdmitToP2p, StartUpgrade, LessLoaded;
  }

  lemma AdvancedFresh(joins: Joins, lifecycles: Lifecycles, r: RoomId, room: Room, c: ClientId)
    requires RoomFresh(joins, lifecycles, r, room) && room.upgrade.Some?
    ensures var room' := AdvancedRoom(room, c);
            RoomFresh(joins, lifecycles, r, room') && BarrierFresh(joins, r, room', room'.upgrade.value.next)
    ensures RoomFresh(joins, lifecycles, r, CommittedRoom(AdvancedRoom(room, c)))
  {
  }

  lemma UpgradeAckFresh(t: Table, p: PendingCommand)
    requires FreshOk(t) && CommandsOk(t) && p.UpgradeJoin?
    ensures FreshOk(UpgradeAck(t, p).0)
  {
    var r := p.join.room;
    if r in t.rooms && t.rooms[r].upgrade.Some? {
      var room := t.rooms[r];
      var t1 := PutRoom(t, r, AdvancedRoom(room, p.join.client));
      QuietLog(t, t1);
      SameIssued(t, t1);
      assert OptFresh(JoinsOf(t), t.lifecycles, r, RoomAt(t, r));
      AdvancedFresh(JoinsOf(t), t.lifecycles, r, room, p.join.client);
      hide Increasing, Bounded, RoomFresh, BarrierFresh, JoinsOf, CommandsOk, EmitsFresh, CommittedRoom;
      forall s: RoomId ensures OptFresh(JoinsOf(t1), t1.lifecycles, s, RoomAt(t1, s)) {
        assert OptFresh(JoinsOf(t), t.lifecycles, s, RoomAt(t, s));
      }
      assert HistoryShape(t1) by { HistoryOf(t1); }
      assert ReadyToIssue(t1, r);
      IssueNextFresh(t1, r);
      CommitFresh(t1, r, CommittedRoom(AdvancedRoom(room, p.join.client)));
    }
    hide FreshOk, CommitUpgrade, IssueNextUpgradeJoin;
  }

  lemma HistoryOf(t: Table)
    requires CommandsOk(t)
    ensures HistoryShape(t)
  {
  }

  lemma CommitFresh(t: Table, r: RoomId, room: Room)
    requires FreshOk(t) && r in t.rooms && t.rooms[r].upgrade.Some? && room == CommittedRoom(t.rooms[r])
    requires RoomFresh(JoinsOf(t), t.lifecycles, r, room)
    ensures FreshOk(CommitUpgrade(t, r).0)
  {
    var t' := CommitUpgrade(t, r).0;
    CommitRooms(t, r);
    CommitQuiet(t, r);
    assert t'.lifecycles == t.lifecycles by { hide CommittedRoom; }
    SameIssued(t, t');
    hide CommitUpgrade, JoinsOf, Increasing, Bounded, RoomFresh, CommittedRoom;
    forall s: RoomId ensures OptFresh(JoinsOf(t'), t'.lifecycles, s, RoomAt(t', s)) {
      assert OptFresh(JoinsOf(t), t.lifecycles, s, RoomAt(t, s));
    }
  }

  /** A step that issues no Join and whose moves are steady. */
  lemma SteadyFresh(t: Table, t': Table)
    requires FreshOk(t) && SameJoins(t, t')
    requires forall s: RoomId :: OptFresh(JoinsOf(t), t.lifecycles, s, RoomAt(t', s))
    ensures FreshOk(t')
  {
  }

  lemma RoomsSteady(t: Table, t': Table, s: RoomId, trail: seq<Move>)
    requires FreshOk(t) && Follows(RoomAt(t, s), trail, RoomAt(t', s)) && forall m :: m in trail ==> Steady(m)
    ensures OptFresh(JoinsOf(t), t.lifecycles, s, RoomAt(t', s))
  {
    assert OptFresh(JoinsOf(t), t.lifecycles, s, RoomAt(t, s));
    SteadyTrail(JoinsOf(t), t.lifecycles, s, RoomAt(t, s), trail, RoomAt(t', s));
  }

  /** A step that issues no Joins: anything but an admission or the result of an UpgradeJoin. */
  ghost predicate SteadyStep(t: Table, step: Step) {
    && !step.AdmitStep?
    && !(step.ResultStep? && step.result.id in t.pending && t.pending[step.result.id].UpgradeJoin?)
  }

  lemma ResultSame(t: Table, connection: ConnectionId, i: InstanceId, result: CommandResult, now: Instant)
    requires CommandsOk(t) && !(result.id in t.pending && t.pending[result.id].UpgradeJoin?)
    ensures SameJoins(t, HandleResult(t, connection, i, result, now).0)
  {
    hide CommandsOk, JoinsOf, SfuJoinResult, SfuLeaveResult, SyncResult, UpgradeJoinResult;
    if result.id in t.pending {
      var t1 := Forget(t, {result.id});
      SameIssued(t, t1);
      var p := t.pending[result.id];
      if p.SyncPending? { SyncSame(t1, connection, i, p, result); }
      SfuResultSame(t1, i, p, result, now);
    }
    SameIssued(t, t);
  }

  lemma RegisterSame(t: Table, r: RoomId, c: ClientId, token: string, order: seq<ClientId>)
    ensures SameJoins(t, Register(t, r, c, token, order).0)
  {
    hide JoinsOf, RegisteredMembers;
    SameIssued(t, Register(t, r, c, token, order).0);
  }

  lemma StepSame(t: Table, step: Step)
    requires CommandsOk(t) && SteadyStep(t, step)
    ensures SameJoins(t, Apply(t, step))
  {
    hide CommandsOk, JoinsOf, Register, Deregister, Send, Remove, RegisterWorker, HandleResult, HandleEvent,
         HandleTimeout;
    match step {
      case RegisterStep(r, c, token, order) => RegisterSame(t, r, c, token, order);
      case DeregisterStep(now, r, c) => DeregisterSame(t, now, r, c);
      case SendStep(r, c, epoch, message, order) => SendSame(t, r, c, epoch, message, order);
      case RemoveStep(ticket, r, c, token) => RemoveSame(t, ticket, r, c, token);
      case WorkerStep(connection, i, request, capacity, rooms, commands) =>
        RegisterWorkerSame(t, connection, i, request, capacity, rooms, commands);
      case ResultStep(connection, i, result, now) => ResultSame(t, connection, i, result, now);
      case EventStep(connection, i, event) => EventSame(t, connection, i, event);
      case LostStep(connection, i, now) => SameIssued(t, LoseWorker(t, connection, i, now));
      case TimeoutStep(now, s) => TimeoutSame(t, now, s);
      case PollStep => SameIssued(t, PollAction(t));
    }
  }

  // ---- all steps ----

  lemma ResultJoinsFresh(t: Table, connection: ConnectionId, i: InstanceId, result: CommandResult, now: Instant)
    requires FreshOk(t) && CommandsOk(t) && RoomsOk(t, false)
    requires result.id in t.pending && t.pending[result.id].UpgradeJoin?
    ensures FreshOk(HandleResult(t, connection, i, result, now).0)
  {
    hide FreshOk, CommandsOk, RoomsOk, JoinsOf, EmitsFresh, UpgradeAck, AbortUpgrade;
    var p := t.pending[result.id];
    var t1 := Forget(t, {result.id});
    ForgetLog(t, {result.id});
    ForgetFresh(t, {result.id});
    UpgradeAckFresh(t1, p);
    AbortFresh(t1, p.join.room, ErrorReason(result));
  }

  lemma AbortFresh(t: Table, r: RoomId, reason: string)
    requires FreshOk(t) && CommandsOk(t)
    ensures FreshOk(AbortUpgrade(t, r, reason).0)
  {
    hide FreshOk, CommandsOk, JoinsOf, AbortUpgrade, OptFresh;
    AbortSame(t, r, reason);
    var aborted := AbortUpgrade(t, r, reason).0;
    forall s: RoomId ensures OptFresh(JoinsOf(t), t.lifecycles, s, RoomAt(aborted, s)) {
      var trail := AbortTrail(t, r, reason, s);
      RoomsSteady(t, aborted, s, trail);
    }
    SteadyFresh(t, aborted);
  }

  lemma ForgetFresh(t: Table, qs: set<RequestId>)
    requires FreshOk(t)
    ensures FreshOk(Forget(t, qs))
  {
    hide JoinsOf, RoomFresh, Increasing, Bounded;
    var t' := Forget(t, qs);
    SameIssued(t, t');
    forall s: RoomId ensures OptFresh(JoinsOf(t), t.lifecycles, s, RoomAt(t', s)) {
      assert OptFresh(JoinsOf(t), t.lifecycles, s, RoomAt(t, s));
    }
  }

  lemma AbortTrail(t: Table, r: RoomId, reason: string, s: RoomId) returns (trail: seq<Move>)
    ensures Follows(RoomAt(t, s), trail, RoomAt(AbortUpgrade(t, r, reason).0, s))
    ensures forall m :: m in trail ==> Steady(m)
  {
    hide AbortUpgrade;
    AbortRooms(t, r, reason);
    trail := [];
    if s == r && r in t.rooms && t.rooms[r].upgrade.Some? {
      OneMove(RoomAt(t, r), UpgradeAborted);
      trail := [UpgradeAborted];
    }
  }

  lemma SteadyMade(step: Step, trail: seq<Move>)
    requires AllMade(step, trail) && !step.AdmitStep? && !step.ResultStep?
    ensures forall m :: m in trail ==> Steady(m)
  {
  }

  /** The moves of a result other than an UpgradeJoin's. */
  lemma ResultSteady(t: Table, connection: ConnectionId, i: InstanceId, result: CommandResult, now: Instant, s: RoomId)
    returns (trail: seq<Move>)
    requires !(result.id in t.pending && t.pending[result.id].UpgradeJoin?)
    ensures Follows(RoomAt(t, s), trail, RoomAt(HandleResult(t, connection, i, result, now).0, s))
    ensures forall m :: m in trail ==> Steady(m)
  {
    hide SyncResult, SfuJoinResult, SfuLeaveResult, UpgradeJoinResult;
    trail := [];
    if i in t.workers && t.workers[i].connection == Some(connection) && result.id in t.pending {
      var p := t.pending[result.id];
      var t1 := Forget(t, {result.id});
      match p {
        case SyncPending(_, _, _, _) => trail := SyncTrail(t1, connection, i, p, result, s);
        case SfuJoin(_, _) => trail := SfuJoinTrail(t1, i, p, result, s);
        case SfuLeave(_, _, _, _, _) => trail := SfuLeaveTrail(t1, i, p, result, now, s);
        case _ =>
      }
    }
  }

  /** Every step, tame or not, keeps lifecycle ids fresh. */
  lemma StepFresh(t: Table, step: Step)
    requires FreshOk(t) && CommandsOk(t) && RoomsOk(t, false) && ProperOrders(t, step)
    ensures FreshOk(Apply(t, step))
  {
    if step.AdmitStep? {
      assert OkAt(t, step.room, false);
      AdmitFresh(t, step.ticket, step.now, step.room, step.client, step.token);
    } else if !SteadyStep(t, step) {
      ResultJoinsFresh(t, step.connection, step.instance, step.result, step.now);
    } else {
      StepSame(t, step);
      hide FreshOk, CommandsOk, RoomsOk, JoinsOf, Apply, ProperOrders, OptFresh;
      forall s: RoomId ensures OptFresh(JoinsOf(t), t.lifecycles, s, RoomAt(Apply(t, step), s)) {
        if step.ResultStep? {
          var trail := ResultSteady(t, step.connection, step.instance, step.result, step.now, s);
          assert Apply(t, step) == HandleResult(t, step.connection, step.instance, step.result, step.now).0 by {
            ApplyResult(t, step);
          }
          RoomsSteady(t, Apply(t, step), s, trail);
        } else {
          var trail := StepTrail(t, step, s);
          SteadyMade(step, trail);
          RoomsSteady(t, Apply(t, step), s, trail);
        }
      }
      SteadyFresh(t, Apply(t, step));
    }
    hide FreshOk, CommandsOk, RoomsOk, Admit, HandleResult;
  }

  lemma ApplyResult(t: Table, step: Step)
    requires step.ResultStep?
    ensures Apply(t, step) == HandleResult(t, step.connection, step.instance, step.result, step.now).0
  {
    hide HandleResult;
  }
}
