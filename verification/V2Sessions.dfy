/** Worker sessions: connections, reconnect deadlines, and the window that filters repeated events. */
module V2Sessions {
  import opened Wrappers
  import opened Collections
  import opened Sfu
  import opened V2State
  import opened V2Steps
  import opened V2Moves
  import opened V2RoomSteps
  import opened V2Slots
  import opened V2SlotSteps
  import opened V2SlotTimers
  import opened V2Ledger

  // ---- operations that leave sessions alone ----

  lemma SessionsTransitive(t0: Table, t1: Table, t2: Table)
    requires SameSessions(t0, t1) && SameSessions(t1, t2)
    ensures SameSessions(t0, t2)
  {
  }

  lemma SameWorkers(t: Table, t': Table)
    requires t'.workers == t.workers
    ensures SameSessions(t, t')
  {
  }

  lemma AbortSessions(t: Table, r: RoomId, reason: string)
    ensures SameSessions(t, AbortUpgrade(t, r, reason).0)
  {
    hide Cleanup, WithoutMember, SameSessions;
    SameWorkers(t, t);
    if r in t.rooms && t.rooms[r].upgrade.Some? {
      var room := t.rooms[r];
      var t1 := PutRoom(t, r, WithoutMember(room, room.upgrade.value.joining)
                                .(upgrade := None, mode := P2p, instance := None));
      SameWorkers(t, t1);
      if room.instance.Some? {
        var i := room.instance.value;
        var t2 := Unassign(t1, r, i, 3);
        CleanupFrame(t2, r, i, room.upgrade.value.joined, room.assignmentEpoch);
        UnassignSessions(t1, r, i, 3);
        SessionsTransitive(t, t1, t2);
        hide Unassign;
        SameWorkers(t2, AbortUpgrade(t, r, reason).0);
        SessionsTransitive(t, t2, AbortUpgrade(t, r, reason).0);
      }
    }
  }

  lemma ExpireRoomSessions(t: Table, r: RoomId)
    ensures SameSessions(t, ExpireRoom(t, r))
  {
    hide AbortUpgrade, ExpiryNotices, ExpiredRoom, SameSession;
    AbortSessions(t, r, "WORKER_UNAVAILABLE");
    if !(r in t.rooms && t.rooms[r].mode == Upgrading) { SameWorkers(t, ExpireRoom(t, r)); }
  }

  lemma {:induction false} ExpireRoomsSessions(t: Table, rooms: seq<RoomId>)
    ensures SameSessions(t, ExpireRooms(t, rooms))
    decreases |rooms|
  {
    hide ExpireRoom, SameSessions;
    if rooms == [] {
      SameWorkers(t, t);
    } else {
      var t1 := ExpireRoom(t, rooms[0]);
      ExpireRoomSessions(t, rooms[0]);
      ExpireRoomsSessions(t1, rooms[1..]);
      SessionsTransitive(t, t1, ExpireRooms(t1, rooms[1..]));
    }
  }

  /** Sessions after an expiry: the same, except that expired deadlines are gone. */
  ghost predicate SessionsExpired(t: Table, t': Table, workers: set<InstanceId>) {
    && t'.workers.Keys == t.workers.Keys
    && forall i :: i in t.workers ==>
         SameSession(if i in workers then t.workers[i].(deadline := None) else t.workers[i], t'.workers[i])
  }

  lemma ExpireWorkerSessions(t: Table, i: InstanceId, rooms: seq<RoomId>)
    ensures SessionsExpired(t, ExpireWorker(t, i, rooms), {i})
  {
    hide ExpireRooms, CommandsOf;
    ExpireRoomsSessions(t, rooms);
  }

  lemma {:induction false} ExpireWorkersSessions(t: Table, workers: seq<InstanceId>, hosted: map<InstanceId, seq<RoomId>>)
    ensures SessionsExpired(t, ExpireWorkers(t, workers, hosted), set i | i in workers)
    decreases |workers|
  {
    hide ExpireWorker;
    if workers != [] {
      var rooms := Listing(hosted, workers[0]);
      var t1 := ExpireWorker(t, workers[0], rooms);
      ExpireWorkerSessions(t, workers[0], rooms);
      ExpireWorkersSessions(t1, workers[1..], hosted);
      assert forall i :: i in workers <==> i == workers[0] || i in workers[1..];
    }
  }

  lemma {:induction false} SweepRoomsSessions(t: Table, now: Instant, rooms: seq<RoomId>,
                                              members: map<RoomId, seq<ClientId>>)
    ensures SameSessions(t, SweepRooms(t, now, rooms, members).0)
    decreases |rooms|
  {
    hide SweepRoom, SameSessions;
    if rooms == [] {
      SameWorkers(t, t);
    } else {
      var order := Listing(members, rooms[0]);
      var t1 := SweepRoom(t, now, rooms[0], order).0;
      SweepRoomSessions(t, now, rooms[0], order);
      SweepRoomsSessions(t1, now, rooms[1..], members);
      SessionsTransitive(t, t1, SweepRooms(t1, now, rooms[1..], members).0);
    }
  }

  lemma TimeoutSessions(t: Table, now: Instant, s: Schedule)
    ensures SessionsExpired(t, HandleTimeout(t, now, s).0, set i | i in s.workers)
  {
    hide ExpireWorkers, SweepRooms;
    ExpireWorkersSessions(t, s.workers, s.hosted);
    SweepRoomsSessions(ExpireWorkers(t, s.workers, s.hosted), now, s.rooms, s.members);
  }

  lemma AdmitSessions(t: Table, ticket: Ticket, now: Instant, r: RoomId, c: ClientId, token: string)
    ensures SameSessions(t, Admit(t, ticket, now, r, c, token).0)
  {
    hide StartUpgrade, Selectable, LessLoaded, SameSession, AdmitToSfu, SameSessions;
    if r in t.rooms && SelectWorker(t, 3).Some? {
      StartUpgradeSessions(t, ticket, now, r, c, token, SelectWorker(t, 3).value);
    }
    SameWorkers(t, t);
    if r in t.rooms { AdmitToSfuSessions(t, ticket, now, r, c, token); }
    SameWorkers(t, CreateRoom(t, now, r, c, token).0);
    if r in t.rooms { SameWorkers(t, AdmitToP2p(t, now, r, c, token).0); }
  }

  lemma AdmitToSfuSessions(t: Table, ticket: Ticket, now: Instant, r: RoomId, c: ClientId, token: string)
    requires r in t.rooms
    ensures SameSessions(t, AdmitToSfu(t, ticket, now, r, c, token).0)
  {
    SameWorkers(t, AdmitToSfu(t, ticket, now, r, c, token).0);
  }

  lemma StartUpgradeSessions(t: Table, ticket: Ticket, now: Instant, r: RoomId, c: ClientId, token: string, i: InstanceId)
    requires r in t.rooms && i in t.workers
    ensures SameSessions(t, StartUpgrade(t, ticket, now, r, c, token, i).0)
  {
    hide UpgradingRoom, FreshLifecycles;
  }

  lemma UpgradeAckWorkers(t: Table, p: PendingCommand)
    requires p.UpgradeJoin?
    ensures UpgradeAck(t, p).0.workers == t.workers
  {
    hide CommitUpgrade, IssueNextUpgradeJoin, AdvancedRoom;
    var r := p.join.room;
    if r in t.rooms && t.rooms[r].upgrade.Some? {
      var t1 := PutRoom(t, r, AdvancedRoom(t.rooms[r], p.join.client));
      CommitWorkers(t1, r);
      IssueNextWorkers(t1, r);
    }
  }

  lemma ResultSessions(t: Table, connection: ConnectionId, i: InstanceId, result: CommandResult, now: Instant)
    ensures SameSessions(t, HandleResult(t, connection, i, result, now).0)
  {
    hide SyncResult, UpgradeAck, AbortUpgrade, SfuJoinResult, SfuLeaveResult, SameSessions;
    SameWorkers(t, t);
    if result.id in t.pending {
      var p := t.pending[result.id];
      var t1 := Forget(t, {result.id});
      SameWorkers(t, t1);
      match p {
        case SyncPending(_, _, _, _) => SyncSessions(t1, connection, i, p, result);
          SessionsTransitive(t, t1, SyncResult(t1, connection, i, p, result).0);
        case UpgradeJoin(_, _) =>
          AbortSessions(t1, p.join.room, ErrorReason(result));
          UpgradeAckWorkers(t1, p);
          SameWorkers(t1, UpgradeAck(t1, p).0);
          SessionsTransitive(t, t1, UpgradeJoinResult(t1, i, p, result).0);
        case SfuJoin(_, _) =>
          SfuJoinSessions(t1, i, p, result);
          SessionsTransitive(t, t1, SfuJoinResult(t1, i, p, result).0);
        case SfuLeave(_, _, _, _, _) =>
          SfuLeaveSessions(t1, i, p, result, now);
          SessionsTransitive(t, t1, SfuLeaveResult(t1, i, p, result, now).0);
        case SignalPending =>
        case CleanupPending =>
      }
    }
  }

  lemma SyncSessions(t: Table, connection: ConnectionId, i: InstanceId, p: PendingCommand, result: CommandResult)
    requires p.SyncPending?
    ensures SameSessions(t, SyncResult(t, connection, i, p, result).0)
  {
    hide PushCommands, SameSessions;
    PushCommandsKeeps(t, connection, p.replay);
    SameWorkers(t, SyncResult(t, connection, i, p, result).0);
  }

  lemma SfuJoinSessions(t: Table, i: InstanceId, p: PendingCommand, result: CommandResult)
    requires p.SfuJoin?
    ensures SameSessions(t, SfuJoinResult(t, i, p, result).0)
  {
    if p.join.room in t.rooms && t.rooms[p.join.room].pendingJoin.Some? {
      JoinResultRooms(t, i, p, result);
      hide SfuJoinResult, Joined;
    }
  }

  lemma SfuLeaveSessions(t: Table, i: InstanceId, p: PendingCommand, result: CommandResult, now: Instant)
    requires p.SfuLeave?
    ensures SameSessions(t, SfuLeaveResult(t, i, p, result, now).0)
  {
    if p.room in t.rooms && t.rooms[p.room].pendingLeave.Some? {
      LeaveResultRooms(t, i, p, result, now);
      hide SfuLeaveResult, Left, Armed;
    }
  }

  lemma DeregisterWorkers(t: Table, now: Instant, r: RoomId, c: ClientId)
    ensures Deregister(t, now, r, c).workers == t.workers
  {
    hide IssueSfuLeave, SetDeadline;
    if r in t.rooms && c in t.rooms[r].members {
      var t1 := PutRoom(t, r, WithMember(t.rooms[r], c, t.rooms[r].members[c].(registered := false)));
      LeaveWorkers(t1, r, c);
      SetDeadlineClients(t, r, c, "");
    }
  }

  lemma BrowserSessions(t: Table, step: Step)
    requires step.RegisterStep? || step.DeregisterStep? || step.SendStep? || step.RemoveStep? || step.PollStep?
    ensures SameSessions(t, Apply(t, step))
  {
    hide Deregister, SameSessions, RegisteredMembers, QueuedFor, Survivors, PromotionOf;
    if step.DeregisterStep? { DeregisterWorkers(t, step.now, step.room, step.client); }
    if step.SendStep? {
      SendWorkers(t, step.room, step.client, step.epoch, step.message, step.order);
      hide Send;
    }
    if step.RemoveStep? {
      RemoveWorkers(t, step.ticket, step.room, step.client, step.token);
      hide Remove;
    }
    if step.RegisterStep? {
      RegisterWorkers(t, step.room, step.client, step.token, step.order);
      hide Register;
    }
    SameWorkers(t, Apply(t, step));
  }

  lemma SendWorkers(t: Table, r: RoomId, c: ClientId, epoch: nat, message: string, order: seq<ClientId>)
    ensures Send(t, r, c, epoch, message, order).0.workers == t.workers
  {
  }

  lemma RemoveWorkers(t: Table, ticket: Ticket, r: RoomId, c: ClientId, token: string)
    ensures Remove(t, ticket, r, c, token).0.workers == t.workers
  {
    hide Survivors, PromotionOf, WithoutMember, PutOrReap, IssueSfuLeave;
    RemovalLeaves(t, ticket, r, c);
    if r in t.rooms {
      ReapWorkers(t, r, WithoutMember(t.rooms[r], c));
      ReapWorkers(t, r, Survivors(WithoutMember(t.rooms[r], c)));
    }
  }

  lemma RemovalLeaves(t: Table, ticket: Ticket, r: RoomId, c: ClientId)
    ensures var left := IssueSfuLeave(t, r, c, Some(ticket), User); left.Some? ==> left.value.workers == t.workers
  {
  }

  lemma ReapWorkers(t: Table, r: RoomId, room: Room)
    ensures PutOrReap(t, r, room).workers == t.workers
  {
  }

  lemma RegisterWorkers(t: Table, r: RoomId, c: ClientId, token: string, order: seq<ClientId>)
    ensures Register(t, r, c, token, order).0.workers == t.workers
  {
  }

  // ---- worker sessions themselves ----

  lemma RegisterWorkerWorkers(t: Table, connection: ConnectionId, i: InstanceId, request: RequestId, capacity: Capacity,
                              rooms: seq<RoomId>, commands: seq<RequestId>)
    ensures RegisterWorker(t, connection, i, request, capacity, rooms, commands).workers
            == if InvalidRegistration(i, request, capacity) then t.workers
               else t.workers[i := ConnectedWorker(t, i, connection, capacity)]
  {
    hide ResyncRooms;
    ResyncFrame(OpenSession(t, connection, i, request, capacity), i, connection, rooms, commands);
  }

  /** The event reaches a connected worker's window for the first time. */
  ghost predicate IsFresh(t: Table, connection: ConnectionId, i: InstanceId, event: Event) {
    && i in t.workers && t.workers[i].connection == Some(connection) && event.id != 0
    && event.id !in t.workers[i].seen
  }

  lemma SignalWorkers(t: Table, connection: ConnectionId, i: InstanceId, id: nat, signal: Signal)
    ensures RelaySignal(t, connection, i, id, signal).0.workers == t.workers
  {
  }

  lemma FreshEventWorkers(t: Table, connection: ConnectionId, i: InstanceId, event: Event)
    requires i in t.workers
    ensures var t' := FreshEvent(t, connection, i, event).0;
            && t'.workers.Keys == t.workers.Keys
            && (forall j :: j in t.workers && j != i ==> t'.workers[j] == t.workers[j])
            && t'.workers[i].seen == t.workers[i].seen && t'.workers[i].seenOrder == t.workers[i].seenOrder
            && t'.workers[i].connection == t.workers[i].connection && t'.workers[i].deadline == t.workers[i].deadline
  {
    hide RelaySignal;
    if event.kind.SignalEvent? { SignalWorkers(t, connection, i, event.id, event.kind.signal); }
    if event.kind.FailureEvent? { FailWorkers(t, event.kind.room, event.kind.error.reason); hide FailNamedRoom; }
  }

  lemma FailWorkers(t: Table, r: Option<RoomId>, reason: string)
    ensures FailNamedRoom(t, r, reason).workers == t.workers
  {
  }

  lemma EventWorkers(t: Table, connection: ConnectionId, i: InstanceId, event: Event)
    ensures var t' := HandleEvent(t, connection, i, event).0;
            && t'.workers.Keys == t.workers.Keys
            && (forall j :: j in t.workers && j != i ==> t'.workers[j] == t.workers[j])
            && (i in t.workers ==>
                  var w := if IsFresh(t, connection, i, event) then Remember(t.workers[i], event.id) else t.workers[i];
                  && t'.workers[i].seen == w.seen && t'.workers[i].seenOrder == w.seenOrder
                  && t'.workers[i].connection == t.workers[i].connection
                  && t'.workers[i].deadline == t.workers[i].deadline)
  {
    hide FreshEvent, Remember;
    if IsFresh(t, connection, i, event) {
      var t1 := PutWorker(t, i, Remember(t.workers[i], event.id));
      RememberFrame(t.workers[i], event.id);
      FreshEventWorkers(t1, connection, i, event);
    }
  }

  /** Every step but those about a worker's session, an event or a timeout leaves sessions alone. */
  lemma StepSessions(t: Table, step: Step)
    requires !step.WorkerStep? && !step.EventStep? && !step.LostStep? && !step.TimeoutStep?
    ensures SameSessions(t, Apply(t, step))
  {
    hide Admit, Register, Deregister, Send, Remove, HandleResult, SameSessions, PollAction;
    match step {
      case AdmitStep(ticket, now, r, c, token) => AdmitSessions(t, ticket, now, r, c, token);
      case ResultStep(connection, j, result, now) => ResultSessions(t, connection, j, result, now);
      case _ => BrowserSessions(t, step);
    }
  }

  // ---- the window of recent events ----

  /** The last `n` elements, or all of them. */
  ghost function Last(s: seq<nat>, n: nat): seq<nat> {
    if |s| <= n then s else s[|s| - n..]
  }

  ghost function SeenBy(t: Table, i: InstanceId): seq<nat> {
    if i in t.workers then t.workers[i].seenOrder else []
  }

  /** What the step adds to the history of fresh events of worker `i`. */
  ghost function Heard(t: Table, step: Step, i: InstanceId): seq<nat> {
    match step
    case EventStep(connection, j, event) =>
      if j == i && IsFresh(t, connection, i, event) then [event.id] else []
    case _ => []
  }

  ghost predicate WindowOk(worker: Worker) {
    && |worker.seenOrder| <= EVENT_DEDUP_CAPACITY
    && NoDuplicates(worker.seenOrder)
    && worker.seen == set x | x in worker.seenOrder
  }

  ghost predicate WindowAt(t: Table, i: InstanceId) {
    i in t.workers ==> WindowOk(t.workers[i])
  }

  lemma RememberWindow(worker: Worker, id: nat)
    requires WindowOk(worker) && id !in worker.seen
    ensures WindowOk(Remember(worker, id))
    ensures Remember(worker, id).seenOrder == Last(worker.seenOrder + [id], EVENT_DEDUP_CAPACITY)
  {
    var order := worker.seenOrder + [id];
    assert NoDuplicates(order);
    if |order| > EVENT_DEDUP_CAPACITY {
      forall x ensures x in worker.seen + {id} - {order[0]} <==> x in order[1..] {
        if x in worker.seen + {id} - {order[0]} {
          assert x in worker.seenOrder || x == id;
          assert order[|worker.seenOrder|] == id;
          assert x in order;
          var k :| 0 <= k < |order| && order[k] == x;
          assert order[1..][k - 1] == x;
        }
        if x in order[1..] {
          var k :| 0 <= k < |order[1..]| && order[1..][k] == x;
          assert order[k + 1] == x && order[0] != order[k + 1];
        }
      }
    }
  }

  lemma SameWindows(t: Table, t': Table, i: InstanceId)
    requires WindowAt(t, i) && SameSessions(t, t')
    ensures WindowAt(t', i) && SeenBy(t', i) == SeenBy(t, i)
  {
  }

  lemma LostWindows(t: Table, connection: ConnectionId, j: InstanceId, now: Instant, i: InstanceId)
    requires WindowAt(t, i)
    ensures var t' := LoseWorker(t, connection, j, now); WindowAt(t', i) && SeenBy(t', i) == SeenBy(t, i)
  {
    hide WindowOk;
    if j in t.workers { LostWindow(t.workers[j], now + t.grace); }
  }

  /** Each step keeps the window the last 4096 of the fresh events. */
  lemma StepWindow(t: Table, step: Step, i: InstanceId)
    requires WindowAt(t, i)
    ensures WindowAt(Apply(t, step), i)
    ensures SeenBy(Apply(t, step), i) == Last(SeenBy(t, i) + Heard(t, step, i), EVENT_DEDUP_CAPACITY)
  {
    hide Admit, Register, Deregister, Send, Remove, RegisterWorker, HandleResult, HandleEvent, HandleTimeout,
         WindowOk, Remember, SameSessions, PollAction, LoseWorker;
    var t' := Apply(t, step);
    assert Last(SeenBy(t, i) + [], EVENT_DEDUP_CAPACITY) == SeenBy(t, i) by {
      assert SeenBy(t, i) + [] == SeenBy(t, i);
      if i in t.workers { WindowSize(t.workers[i]); }
    }
    hide Last, IsFresh;
    if step.WorkerStep? {
      RegisterWorkerWorkers(t, step.connection, step.instance, step.request, step.capacity, step.rooms, step.commands);
      if i == step.instance { EmptyWindow(t, step.connection, i, step.capacity); }
    } else if step.LostStep? {
      LostWindows(t, step.connection, step.instance, step.now, i);
    } else if step.EventStep? {
      EventWindows(t, step.connection, step.instance, step.event, i);
    } else if step.TimeoutStep? {
      TimeoutSessions(t, step.now, step.schedule);
      if i in t.workers { SessionWindow(t.workers[i], t'.workers[i]); }
    } else {
      StepSessions(t, step);
      hide Apply;
      SameWindows(t, t', i);
    }
  }

  lemma WindowSize(worker: Worker)
    requires WindowOk(worker)
    ensures |worker.seenOrder| <= EVENT_DEDUP_CAPACITY
  {
  }

  lemma EmptyWindow(t: Table, connection: ConnectionId, i: InstanceId, capacity: Capacity)
    requires i in t.workers ==> WindowOk(t.workers[i])
    ensures WindowOk(ConnectedWorker(t, i, connection, capacity))
    ensures ConnectedWorker(t, i, connection, capacity).seenOrder == SeenBy(t, i)
  {
  }

  lemma LostWindow(worker: Worker, deadline: Instant)
    ensures WindowOk(worker) ==> WindowOk(worker.(connection := None, health := None, deadline := Some(deadline)))
  {
  }

  lemma SessionWindow(a: Worker, b: Worker)
    requires WindowOk(a) && b.seen == a.seen && b.seenOrder == a.seenOrder
    ensures WindowOk(b)
  {
  }

  lemma EventWindow(t: Table, connection: ConnectionId, i: InstanceId, event: Event)
    requires i in t.workers && WindowOk(t.workers[i])
    ensures var t' := HandleEvent(t, connection, i, event).0;
            && WindowAt(t', i)
            && SeenBy(t', i) == Last(SeenBy(t, i) + Heard(t, EventStep(connection, i, event), i), EVENT_DEDUP_CAPACITY)
  {
    hide HandleEvent;
    EventWorkers(t, connection, i, event);
    var t' := HandleEvent(t, connection, i, event).0;
    if IsFresh(t, connection, i, event) {
      RememberWindow(t.workers[i], event.id);
      SessionWindow(Remember(t.workers[i], event.id), t'.workers[i]);
    } else {
      SessionWindow(t.workers[i], t'.workers[i]);
      assert SeenBy(t, i) + [] == SeenBy(t, i);
    }
  }

  lemma EventWindows(t: Table, connection: ConnectionId, j: InstanceId, event: Event, i: InstanceId)
    requires WindowAt(t, i)
    ensures var t' := HandleEvent(t, connection, j, event).0;
            && WindowAt(t', i)
            && SeenBy(t', i) == Last(SeenBy(t, i) + Heard(t, EventStep(connection, j, event), i), EVENT_DEDUP_CAPACITY)
  {
    hide HandleEvent, Remember, WindowOk;
    EventWorkers(t, connection, j, event);
    if i in t.workers {
      if i == j {
        EventWindow(t, connection, i, event);
      } else {
        assert SeenBy(t, i) + [] == SeenBy(t, i);
        WindowSize(t.workers[i]);
      }
    }
  }

  /** A repeated event that is still in the window does nothing but draw another acknowledgement. */
  lemma RepeatOnlyAcks(t: Table, connection: ConnectionId, i: InstanceId, event: Event)
    requires WindowAt(t, i) && i in t.workers && t.workers[i].connection == Some(connection) && event.id != 0
    ensures event.id in SeenBy(t, i) <==> !IsFresh(t, connection, i, event)
    ensures event.id in SeenBy(t, i) ==>
              HandleEvent(t, connection, i, event) == (Push(t, SfuOut(EventAck(connection, event.id))), Ok(()))
  {
  }

  // ---- deadlines ----

  /** Only a disconnected worker is on a reconnect deadline. */
  ghost predicate WorkerTimers(t: Table) {
    forall i :: i in t.workers && t.workers[i].deadline.Some? ==> t.workers[i].connection.None?
  }

  lemma StepWorkerTimers(t: Table, step: Step)
    requires WorkerTimers(t)
    ensures WorkerTimers(Apply(t, step))
  {
    hide Admit, Register, Deregister, Send, Remove, RegisterWorker, HandleResult, HandleEvent, HandleTimeout;
    match step {
      case WorkerStep(connection, j, request, capacity, rooms, commands) =>
        RegisterWorkerWorkers(t, connection, j, request, capacity, rooms, commands);
      case LostStep(connection, j, now) =>
      case EventStep(connection, j, event) => EventWorkers(t, connection, j, event);
      case TimeoutStep(now, s) => TimeoutSessions(t, now, s);
      case _ => StepSessions(t, step);
    }
  }
}
