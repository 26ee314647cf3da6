/** Requests of the authority: each one that is left pending is held in exactly one place, until
    exactly one completion for it is queued. */
module V2Tickets {
  import opened Wrappers
  import opened Collections
  import opened Sfu
  import opened V2State
  import opened V2Steps
  import opened V2Rooms
  import opened V2Moves
  import opened V2RoomSteps
  import opened V2Commands
  import opened V2Slots
  import opened V2SlotSteps
  import opened V2SlotTimers

  ghost function One(b: bool): nat {
    if b then 1 else 0
  }

  /** How often a room holds ticket `x`. */
  ghost function Held(room: Room, x: Ticket): nat {
    One(room.upgrade.Some? && room.upgrade.value.ticket == x)
    + One(room.pendingJoin.Some? && room.pendingJoin.value.ticket == x)
    + One(room.pendingLeave.Some? && room.pendingLeave.value.ticket == Some(x))
  }

  ghost function HeldOf(x: Ticket): Room -> nat {
    room => Held(room, x)
  }

  ghost function HeldOpt(a: Option<Room>, x: Ticket): nat {
    if a.Some? then Held(a.value, x) else 0
  }

  ghost function HeldAt(t: Table, r: RoomId, x: Ticket): nat {
    HeldOpt(RoomAt(t, r), x)
  }

  ghost function Completes(action: Action, x: Ticket): nat {
    One((action.AdmissionCompleted? || action.RemovalCompleted?) && action.ticket == x)
  }

  ghost function Completions(actions: seq<Action>, x: Ticket): nat {
    if actions == [] then 0 else Completes(actions[0], x) + Completions(actions[1..], x)
  }

  /** Where ticket `x` is now: held by rooms, or completed in the action queue. */
  ghost function Outstanding(t: Table, x: Ticket): nat {
    Sum(t.rooms, HeldOf(x)) + Completions(t.actions, x)
  }

  lemma {:induction false} CompletionsConcat(a: seq<Action>, b: seq<Action>, x: Ticket)
    ensures Completions(a + b, x) == Completions(a, x) + Completions(b, x)
  {
    if a == [] {
      assert a + b == b;
    } else {
      assert (a + b)[1..] == a[1..] + b;
      CompletionsConcat(a[1..], b, x);
    }
  }

  lemma CompletionsPush(a: seq<Action>, action: Action, x: Ticket)
    ensures Completions(a + [action], x) == Completions(a, x) + Completes(action, x)
  {
    CompletionsConcat(a, [action], x);
    assert [action][1..] == [];
  }

  ghost predicate SameCompletions(t: Table, t': Table, x: Ticket) {
    Completions(t'.actions, x) == Completions(t.actions, x)
  }

  // ---- operations that complete nothing ----

  lemma IssueSilent(t: Table, i: InstanceId, connection: ConnectionId, kind: CommandKind, p: PendingCommand, x: Ticket)
    ensures SameCompletions(t, IssueCommand(t, i, connection, kind, p), x)
  {
    CompletionsPush(t.actions, SfuOut(CommandOut(connection, Command(t.nextRequest, kind))), x);
  }

  lemma CleanupSilent(t: Table, r: RoomId, i: InstanceId, clients: seq<ClientId>, epoch: nat, x: Ticket)
    ensures SameCompletions(t, Cleanup(t, r, i, clients, epoch).0, x)
  {
    hide Cleanup, IssueCommand;
    forall t0: Table, connection, leave: LeaveMember | SameCompletions(t, t0, x)
      ensures SameCompletions(t, IssueCommand(t0, i, connection, LeaveCommand(leave), CleanupPending), x)
    {
      IssueSilent(t0, i, connection, LeaveCommand(leave), CleanupPending, x);
    }
    CleanupKeeps(t0 => SameCompletions(t, t0, x), t, r, i, clients, epoch);
  }

  lemma ResyncRoomSilent(t: Table, i: InstanceId, connection: ConnectionId, r: RoomId, commands: seq<RequestId>, x: Ticket)
    ensures SameCompletions(t, ResyncRoom(t, i, connection, r, commands), x)
  {
    hide Replay, Projection, IssueCommand;
    if r in t.rooms {
      IssueSilent(t, i, connection, SyncCommand(SyncRoom(r, t.rooms[r].assignmentEpoch, Projection(t.rooms[r]))),
                  SyncPending(i, r, t.rooms[r].assignmentEpoch, Replay(t, i, r, commands)), x);
    }
  }

  lemma ResyncSilent(t: Table, i: InstanceId, connection: ConnectionId, rooms: seq<RoomId>, commands: seq<RequestId>,
                     x: Ticket)
    ensures SameCompletions(t, ResyncRooms(t, i, connection, rooms, commands), x)
  {
    hide ResyncRoom, ResyncRooms;
    forall t0: Table, r: RoomId | SameCompletions(t, t0, x)
      ensures SameCompletions(t, ResyncRoom(t0, i, connection, r, commands), x)
    {
      ResyncRoomSilent(t0, i, connection, r, commands, x);
    }
    ResyncKeeps(t0 => SameCompletions(t, t0, x), t, i, connection, rooms, commands);
  }

  lemma {:induction false} PushCommandsSilent(t: Table, connection: ConnectionId, commands: seq<Command>, x: Ticket)
    ensures SameCompletions(t, PushCommands(t, connection, commands), x)
    decreases |commands|
  {
    if commands != [] {
      CompletionsPush(t.actions, SfuOut(CommandOut(connection, commands[0])), x);
      PushCommandsSilent(Push(t, SfuOut(CommandOut(connection, commands[0]))), connection, commands[1..], x);
    }
  }

  lemma IssueSfuLeaveSilent(t: Table, r: RoomId, c: ClientId, ticket: Option<Ticket>, reason: LeaveReason, x: Ticket)
    ensures var left := IssueSfuLeave(t, r, c, ticket, reason);
            left.Some? ==> SameCompletions(t, left.value, x)
  {
    if IssueSfuLeave(t, r, c, ticket, reason).Some? {
      var room := t.rooms[r];
      var i := room.instance.value;
      var lifecycle := room.members[c].lifecycle;
      IssueSilent(PutRoom(t, r, room.(pendingLeave := Some(PendingLeave(ticket, c)))), i, Connection(t, i).value,
                  LeaveCommand(LeaveMember(r, c, lifecycle, room.assignmentEpoch, reason)),
                  SfuLeave(i, r, c, lifecycle, room.assignmentEpoch), x);
    }
  }

  lemma IssueNextSilent(t: Table, r: RoomId, x: Ticket)
    ensures IssueNextUpgradeJoin(t, r).Ok? ==> SameCompletions(t, IssueNextUpgradeJoin(t, r).value, x)
  {
    if IssueNextUpgradeJoin(t, r).Ok? {
      var room := t.rooms[r];
      var c := room.upgrade.value.ordered[room.upgrade.value.next];
      var join := JoinMember(r, c, room.members[c].lifecycle, room.assignmentEpoch);
      var i := room.instance.value;
      IssueSilent(t, i, Connection(t, i).value, JoinCommand(join), UpgradeJoin(i, join), x);
    }
  }

  lemma LeaveOrWaitSilent(t: Table, now: Instant, r: RoomId, c: ClientId, x: Ticket)
    ensures SameCompletions(t, LeaveOrWait(t, now, r, c), x)
  {
    hide IssueSfuLeave;
    IssueSfuLeaveSilent(t, r, c, None, Disconnected, x);
  }

  lemma SendSilent(t: Table, r: RoomId, c: ClientId, epoch: nat, message: string, order: seq<ClientId>, x: Ticket)
    ensures SameCompletions(t, Send(t, r, c, epoch, message, order).0, x)
  {
    hide IssueCommand, SameCompletions;
    assert SameCompletions(t, t, x) by { NoCompletions(t, t, x); }
    if r in t.rooms && c in t.rooms[r].members {
      NoCompletions(t, Enqueue(t, r, c, message).0, x);
      hide Enqueue;
      var room := t.rooms[r];
      if RoomConnection(t, room).Some? {
        var i := room.instance.value;
        var signal := Signal(r, c, room.members[c].lifecycle, room.assignmentEpoch, message, None);
        IssueSilent(t, i, Connection(t, i).value, SignalCommand(signal), SignalPending, x);
      }
    }
  }

  lemma NoCompletions(t: Table, t': Table, x: Ticket)
    requires t'.actions == t.actions
    ensures SameCompletions(t, t', x)
  {
  }

  lemma OpenSessionSilent(t: Table, connection: ConnectionId, i: InstanceId, request: RequestId, capacity: Capacity,
                          x: Ticket)
    ensures SameCompletions(t, OpenSession(t, connection, i, request, capacity), x)
  {
    var previous := Connection(t, i);
    var closed := if previous.Some? && previous.value != connection then [SfuOut(CloseWorker(previous.value))] else [];
    var registered := SfuOut(Registered(connection, request, HEALTH_INTERVAL_MS, i in t.workers));
    CompletionsPush(t.actions + closed, registered, x);
    if closed == [] { assert t.actions + closed == t.actions; }
    else { CompletionsPush(t.actions, closed[0], x); }
  }

  lemma RegisterWorkerSilent(t: Table, connection: ConnectionId, i: InstanceId, request: RequestId, capacity: Capacity,
                             rooms: seq<RoomId>, commands: seq<RequestId>, x: Ticket)
    ensures SameCompletions(t, RegisterWorker(t, connection, i, request, capacity, rooms, commands), x)
  {
    hide OpenSession, ResyncRooms;
    OpenSessionSilent(t, connection, i, request, capacity, x);
    ResyncSilent(OpenSession(t, connection, i, request, capacity), i, connection, rooms, commands, x);
    CompletionsPush(t.actions, SfuOut(RegistrationError(connection, request, WorkerError("INVALID_REQUEST", false))), x);
  }

  lemma FreshEventSilent(t: Table, connection: ConnectionId, i: InstanceId, event: Event, x: Ticket)
    requires i in t.workers && !(event.kind.FailureEvent? && event.kind.room.Some?)
    ensures SameCompletions(t, FreshEvent(t, connection, i, event).0, x)
  {
    var ack := SfuOut(EventAck(connection, event.id));
    CompletionsPush(t.actions, ack, x);
    match event.kind {
      case HealthEvent(_) =>
      case SignalEvent(signal) =>
        var deliver := Deliver(Delivery(signal.room, signal.client, signal.message));
        CompletionsPush(t.actions, deliver, x);
        CompletionsPush(t.actions + [deliver], ack, x);
        assert t.actions + [deliver, ack] == t.actions + [deliver] + [ack];
      case FailureEvent(_, _) =>
    }
  }

  lemma EventSilent(t: Table, connection: ConnectionId, i: InstanceId, event: Event, x: Ticket)
    requires !ReachesFailRoom(t, EventStep(connection, i, event))
    ensures SameCompletions(t, HandleEvent(t, connection, i, event).0, x)
  {
    hide FreshEvent, Remember;
    CompletionsPush(t.actions, SfuOut(EventAck(connection, event.id)), x);
    if i in t.workers && t.workers[i].connection == Some(connection) && event.id != 0
       && event.id !in t.workers[i].seen {
      FreshEventSilent(PutWorker(t, i, Remember(t.workers[i], event.id)), connection, i, event, x);
    }
  }

  lemma DeregisterSilent(t: Table, now: Instant, r: RoomId, c: ClientId, x: Ticket)
    ensures SameCompletions(t, Deregister(t, now, r, c), x)
  {
    hide LeaveOrWait, SetDeadline;
    if r in t.rooms && c in t.rooms[r].members {
      var t1 := PutRoom(t, r, WithMember(t.rooms[r], c, t.rooms[r].members[c].(registered := false)));
      LeaveOrWaitSilent(t1, now, r, c, x);
      SetDeadlineSilent(t1, r, c, now + t.grace, x);
    }
  }

  lemma SetDeadlineSilent(t: Table, r: RoomId, c: ClientId, d: Instant, x: Ticket)
    ensures SameCompletions(t, SetDeadline(t, r, c, d), x)
  {
  }

  lemma RegisterSilent(t: Table, r: RoomId, c: ClientId, token: string, order: seq<ClientId>, x: Ticket)
    ensures SameCompletions(t, Register(t, r, c, token, order).0, x)
  {
    hide RegisteredMembers;
  }

  // ---- moves that neither take a ticket nor answer one ----

  ghost predicate Ticketless(m: Move) {
    match m
    case UpgradeBegun(_, _, _, _, _) => false
    case JoinBegun(_, _, _) => false
    case LeaveBegun(removal, _) => removal.None?
    case UpgradeCommitted(_) => false
    case UpgradeAborted => false
    case JoinEnded(_) => false
    case LeaveEnded(_, _, _, _) => false
    case Expired => false
    case ForceFailed => false
    case _ => true
  }

  /** Only SFU rooms have a join or leave in flight. */
  ghost predicate TransitionsInSfu(a: Option<Room>) {
    a.Some? && (a.value.pendingJoin.Some? || a.value.pendingLeave.Some?) ==> a.value.mode == Sfu
  }

  lemma TicketlessMove(a: Option<Room>, m: Move, x: Ticket)
    requires Enabled(a, m) && Ticketless(m) && OkOpt(a, true) && TransitionsInSfu(a)
    ensures HeldOpt(Moved(a, m), x) == HeldOpt(a, x) && TransitionsInSfu(Moved(a, m))
  {
  }

  lemma {:induction false} TicketlessTrail(a: Option<Room>, trail: seq<Move>, b: Option<Room>, x: Ticket)
    requires Follows(a, trail, b) && (forall m :: m in trail ==> Ticketless(m)) && OkOpt(a, true) && TransitionsInSfu(a)
    ensures HeldOpt(b, x) == HeldOpt(a, x)
    decreases |trail|
  {
    hide Enabled, Moved, OkOpt, TransitionsInSfu, HeldOpt;
    if trail != [] {
      assert trail[0] in trail && Ticketless(trail[0]);
      TicketlessMove(a, trail[0], x);
      MoveKeepsRoom(a, trail[0], true);
      assert forall m :: m in trail[1..] ==> m in trail;
      TicketlessTrail(Moved(a, trail[0]), trail[1..], b, x);
    }
  }

  lemma CoreRoom(t: Table, s: RoomId, acks: Acks)
    requires Core(t, acks, true)
    ensures OkOpt(RoomAt(t, s), true) && TransitionsInSfu(RoomAt(t, s)) && SlotAt(t, s, acks, true)
  {
    assert SlotAt(t, s, acks, true);
  }

  lemma SameHeld(t: Table, t': Table, x: Ticket)
    requires forall s: RoomId :: HeldAt(t', s, x) == HeldAt(t, s, x)
    ensures Sum(t'.rooms, HeldOf(x)) == Sum(t.rooms, HeldOf(x))
  {
    forall s ensures ValueAt(t'.rooms, HeldOf(x), s) == ValueAt(t.rooms, HeldOf(x), s) {
      assert HeldAt(t', s, x) == HeldAt(t, s, x);
    }
    SumPointwise(t.rooms, t'.rooms, HeldOf(x));
  }

  /** A change to one room changes the tickets held by the difference there. */
  lemma OneHeld(t: Table, t': Table, r: RoomId, x: Ticket)
    requires t'.rooms - {r} == t.rooms - {r}
    ensures Sum(t'.rooms, HeldOf(x)) + HeldAt(t, r, x) == Sum(t.rooms, HeldOf(x)) + HeldAt(t', r, x)
  {
    HeldApart(t, r, x);
    HeldApart(t', r, x);
  }

  lemma HeldApart(t: Table, r: RoomId, x: Ticket)
    ensures Sum(t.rooms, HeldOf(x)) == HeldAt(t, r, x) + Sum(t.rooms - {r}, HeldOf(x))
  {
    if r in t.rooms {
      SumRemove(t.rooms, HeldOf(x), r);
    } else {
      assert t.rooms - {r} == t.rooms;
    }
  }

  // ---- steps that neither take a ticket nor answer one ----

  ghost predicate TicketlessStep(step: Step) {
    step.RegisterStep? || step.DeregisterStep? || step.SendStep? || step.WorkerStep? || step.EventStep?
    || step.LostStep?
  }

  lemma TicketlessSilent(t: Table, step: Step, x: Ticket)
    requires TicketlessStep(step) && !ReachesFailRoom(t, step)
    ensures SameCompletions(t, Apply(t, step), x)
  {
    hide SameCompletions, Register, Deregister, Send, RegisterWorker, HandleEvent;
    match step {
      case RegisterStep(r, c, token, order) => RegisterSilent(t, r, c, token, order, x);
      case DeregisterStep(now, r, c) => DeregisterSilent(t, now, r, c, x);
      case SendStep(r, c, epoch, message, order) => SendSilent(t, r, c, epoch, message, order, x);
      case WorkerStep(connection, i, request, capacity, rooms, commands) =>
        RegisterWorkerSilent(t, connection, i, request, capacity, rooms, commands, x);
      case EventStep(connection, i, event) => EventSilent(t, connection, i, event, x);
      case LostStep(connection, i, now) => NoCompletions(t, LoseWorker(t, connection, i, now), x);
    }
  }

  lemma TicketlessMade(step: Step, trail: seq<Move>)
    requires AllMade(step, trail) && Unforced(trail) && TicketlessStep(step)
    ensures forall m :: m in trail ==> Ticketless(m)
  {
  }

  lemma TicketlessKeeps(t: Table, step: Step, x: Ticket, acks: Acks)
    requires Core(t, acks, true) && ProperOrders(t, step) && TicketlessStep(step) && !ReachesFailRoom(t, step)
    ensures Outstanding(Apply(t, step), x) == Outstanding(t, x)
  {
    var t' := Apply(t, step);
    TicketlessSilent(t, step, x);
    Weaken(t, true);
    hide Apply, Core, RoomsOk, TicketlessStep, ReachesFailRoom, ProperOrders;
    forall s: RoomId ensures HeldAt(t', s, x) == HeldAt(t, s, x) {
      var trail := StepTrail(t, step, s);
      TicketlessMade(step, trail);
      CoreRoom(t, s, acks);
      TicketlessTrail(RoomAt(t, s), trail, RoomAt(t', s), x);
    }
    SameHeld(t, t', x);
  }

  // ---- steps that take a ticket ----

  /** The step leaves a request with ticket `x` pending. */
  ghost function Opened(t: Table, step: Step, x: Ticket): nat {
    match step
    case AdmitStep(ticket, now, r, c, token) =>
      One(ticket == x && Admit(t, ticket, now, r, c, token).1 == Ok(AdmissionPending))
    case RemoveStep(ticket, r, c, token) =>
      One(ticket == x && Remove(t, ticket, r, c, token).1 == Ok(RemovalPending))
    case _ => 0
  }

  /** The step hands a completion of ticket `x` to the caller. */
  ghost function Popped(t: Table, step: Step, x: Ticket): nat {
    if step.PollStep? && t.actions != [] then Completes(t.actions[0], x) else 0
  }

  lemma QuietRoomHeld(a: Option<Room>, x: Ticket)
    requires OkOpt(a, true) && TransitionsInSfu(a) && (a.Some? ==> a.value.mode == P2p || a.value.mode == Failed)
    ensures HeldOpt(a, x) == 0
  {
  }

  lemma PlainAdmitTickets(t: Table, now: Instant, r: RoomId, c: ClientId, token: string, x: Ticket)
    ensures r !in t.rooms ==> Outstanding(CreateRoom(t, now, r, c, token).0, x) == Outstanding(t, x)
    ensures r in t.rooms ==> Outstanding(AdmitToP2p(t, now, r, c, token).0, x) == Outstanding(t, x)
  {
    OneHeld(t, CreateRoom(t, now, r, c, token).0, r, x);
    if r in t.rooms { OneHeld(t, AdmitToP2p(t, now, r, c, token).0, r, x); }
  }

  lemma AdmitToSfuTickets(t: Table, ticket: Ticket, now: Instant, r: RoomId, c: ClientId, token: string, x: Ticket)
    requires r in t.rooms && t.rooms[r].pendingJoin.None?
    ensures var done := AdmitToSfu(t, ticket, now, r, c, token);
            Outstanding(done.0, x) == Outstanding(t, x) + One(ticket == x && done.1 == Ok(AdmissionPending))
  {
    var room := t.rooms[r];
    if RoomConnection(t, room).Some? {
      var lifecycle := NextLifecycle(t, r, c);
      var room' := WithMember(room, c, NewMember(now, t.grace, token, false, lifecycle))
                   .(pendingJoin := Some(PendingJoin(ticket, c)), downgradeDeadline := None);
      var t1 := PutRoom(DrawLifecycle(t, r, c), r, room');
      var join := JoinMember(r, c, lifecycle, room.assignmentEpoch);
      var i := room.instance.value;
      OneHeld(t, t1, r, x);
      IssueSilent(t1, i, Connection(t, i).value, JoinCommand(join), SfuJoin(i, join), x);
    }
  }

  lemma BarrierHeld(room: Room, ticket: Ticket, c: ClientId, member: Member, i: InstanceId,
                    lifecycles: map<ClientId, nat>, x: Ticket)
    requires Held(room, x) == 0
    ensures Held(BarrierRoom(room, ticket, c, member, i, lifecycles), x) == One(ticket == x)
  {
  }

  lemma StartUpgradeSilent(t: Table, ticket: Ticket, now: Instant, r: RoomId, c: ClientId, token: string,
                           i: InstanceId, x: Ticket)
    requires r in t.rooms && i in t.workers
    ensures SameCompletions(t, StartUpgrade(t, ticket, now, r, c, token, i).0, x)
  {
    hide IssueNextUpgradeJoin, UpgradingRoom, FreshLifecycles;
    var begun := BeginUpgrade(t, ticket, now, r, c, token, i);
    IssueNextSilent(begun, r, x);
  }

  lemma StartUpgradePends(t: Table, ticket: Ticket, now: Instant, r: RoomId, c: ClientId, token: string,
                          i: InstanceId, acks: Acks)
    requires Core(t, acks, true) && r in t.rooms && t.rooms[r].mode == P2p && c !in t.rooms[r].members
    requires i in t.workers && t.workers[i].connection.Some?
    ensures StartUpgrade(t, ticket, now, r, c, token, i).1 == Ok(AdmissionPending)
    ensures t.rooms[r].upgrade.None? && Idle(t.rooms[r])
  {
    hide SlotAt, StartUpgrade;
    CoreRoom(t, r, acks);
    StartUpgradeSlots(t, ticket, now, r, c, token, i, r, acks, true);
  }

  lemma StartUpgradeTickets(t: Table, ticket: Ticket, now: Instant, r: RoomId, c: ClientId, token: string,
                            i: InstanceId, x: Ticket, acks: Acks)
    requires Core(t, acks, true) && r in t.rooms && t.rooms[r].mode == P2p && c !in t.rooms[r].members
    requires i in t.workers && t.workers[i].connection.Some?
    ensures var done := StartUpgrade(t, ticket, now, r, c, token, i);
            done.1 == Ok(AdmissionPending) && Outstanding(done.0, x) == Outstanding(t, x) + One(ticket == x)
  {
    hide Core, StartUpgrade, BarrierRoom, Draws;
    StartUpgradePends(t, ticket, now, r, c, token, i, acks);
    StartUpgradeRooms(t, ticket, now, r, c, token, i);
    StartUpgradeSilent(t, ticket, now, r, c, token, i, x);
    assert Held(t.rooms[r], x) == 0;
    hide Held;
    BarrierHeld(t.rooms[r], ticket, c, NewMember(now, t.grace, token, false, NextLifecycle(t, r, c)), i,
                Draws(t, r, t.rooms[r].members.Keys), x);
    OneHeld(t, StartUpgrade(t, ticket, now, r, c, token, i).0, r, x);
  }

  lemma AdmitTickets(t: Table, ticket: Ticket, now: Instant, r: RoomId, c: ClientId, token: string, x: Ticket, acks: Acks)
    requires Core(t, acks, true)
    ensures var done := Admit(t, ticket, now, r, c, token);
            Outstanding(done.0, x) == Outstanding(t, x) + One(ticket == x && done.1 == Ok(AdmissionPending))
  {
    hide Core, Outstanding, StartUpgrade, AdmitToSfu, LessLoaded;
    PlainAdmitTickets(t, now, r, c, token, x);
    if r in t.rooms && c !in t.rooms[r].members {
      if t.rooms[r].mode == Sfu && t.rooms[r].pendingJoin.None? {
        AdmitToSfuTickets(t, ticket, now, r, c, token, x);
      } else if t.rooms[r].mode == P2p && SelectWorker(t, 3).Some? {
        StartUpgradeTickets(t, ticket, now, r, c, token, SelectWorker(t, 3).value, x, acks);
      }
    }
  }

  lemma IssueSfuLeaveTickets(t: Table, r: RoomId, c: ClientId, ticket: Option<Ticket>, reason: LeaveReason, x: Ticket)
    ensures var left := IssueSfuLeave(t, r, c, ticket, reason);
            left.Some? ==> Outstanding(left.value, x) == Outstanding(t, x) + One(ticket == Some(x))
  {
    IssueSfuLeaveSilent(t, r, c, ticket, reason, x);
    if IssueSfuLeave(t, r, c, ticket, reason).Some? {
      OneHeld(t, IssueSfuLeave(t, r, c, ticket, reason).value, r, x);
    }
  }

  lemma DepartedHeld(room: Room, gone: set<ClientId>, x: Ticket)
    ensures Held(Survivors(room.(members := room.members - gone)), x) == Held(room, x)
    ensures Held(room.(members := room.members - gone), x) == Held(room, x)
  {
  }

  lemma ReapTickets(t: Table, r: RoomId, room: Room, x: Ticket)
    requires HeldAt(t, r, x) == 0 && Held(room, x) == 0
    ensures Outstanding(PutOrReap(t, r, room), x) == Outstanding(t, x)
  {
    OneHeld(t, PutOrReap(t, r, room), r, x);
  }

  lemma DirectRemoveTickets(t: Table, r: RoomId, c: ClientId, x: Ticket)
    requires r in t.rooms && (t.rooms[r].mode == P2p || t.rooms[r].mode == Failed) && Held(t.rooms[r], x) == 0
    ensures var left := WithoutMember(t.rooms[r], c);
            && Outstanding(PutOrReap(t, r, left), x) == Outstanding(t, x)
            && Outstanding(PutOrReap(t, r, Survivors(left)), x) == Outstanding(t, x)
  {
    hide Outstanding, Survivors, PutOrReap, Held;
    var room := t.rooms[r];
    DepartedHeld(room, {c}, x);
    assert WithoutMember(room, c) == room.(members := room.members - {c});
    ReapTickets(t, r, WithoutMember(room, c), x);
    ReapTickets(t, r, Survivors(WithoutMember(room, c)), x);
  }

  /** The ways a removal can go. */
  lemma RemoveCases(t: Table, ticket: Ticket, r: RoomId, c: ClientId, token: string)
    ensures var done := Remove(t, ticket, r, c, token);
            || (done.0 == t && done.1.Err?)
            || (IssueSfuLeave(t, r, c, Some(ticket), User) == Some(done.0) && done.1 == Ok(RemovalPending))
            || (r in t.rooms && (t.rooms[r].mode == P2p || t.rooms[r].mode == Failed)
                && done.0 == PutOrReap(t, r, Survivors(WithoutMember(t.rooms[r], c))) && OkRemoved(done.1))
            || (r in t.rooms && t.rooms[r].mode == Failed
                && done.0 == PutOrReap(t, r, WithoutMember(t.rooms[r], c)) && OkRemoved(done.1))
  {
    hide IssueSfuLeave, PutOrReap, Survivors, PromotionOf, WithoutMember;
  }

  ghost predicate OkRemoved(result: Result<RemovalResult, string>) {
    result.Ok? && result.value.Removed?
  }

  lemma RemoveTickets(t: Table, ticket: Ticket, r: RoomId, c: ClientId, token: string, x: Ticket, acks: Acks)
    requires Core(t, acks, true)
    ensures var done := Remove(t, ticket, r, c, token);
            Outstanding(done.0, x) == Outstanding(t, x) + One(ticket == x && done.1 == Ok(RemovalPending))
  {
    hide Core, Outstanding, Remove, IssueSfuLeave, Survivors, PutOrReap, WithoutMember;
    CoreRoom(t, r, acks);
    RemoveCases(t, ticket, r, c, token);
    IssueSfuLeaveTickets(t, r, c, Some(ticket), User, x);
    if r in t.rooms && (t.rooms[r].mode == P2p || t.rooms[r].mode == Failed) {
      QuietRoomHeld(RoomAt(t, r), x);
      DirectRemoveTickets(t, r, c, x);
    }
  }

  // ---- steps that answer one ----

  lemma CommitTickets(t: Table, r: RoomId, x: Ticket)
    requires r in t.rooms && t.rooms[r].upgrade.Some? && t.rooms[r].upgrade.value.joining in t.rooms[r].members
    ensures Outstanding(CommitUpgrade(t, r).0, x) == Outstanding(t, x)
  {
    var t' := CommitUpgrade(t, r).0;
    var room := t.rooms[r];
    CommitRooms(t, r);
    OneHeld(t, t', r, x);
    CommitHeld(room, x);
    hide CommittedRoom;
    var upgraded := Upgraded(r, CommittedRoom(room).signalEpoch, room.members.Keys - {room.upgrade.value.joining});
    var done := AdmissionCompleted(room.upgrade.value.ticket,
                                   Ok(Admission(Sfu, CommittedRoom(room).signalEpoch,
                                                room.members[room.upgrade.value.joining].token, None)));
    CompletionsPush(t.actions, upgraded, x);
    CompletionsPush(t.actions + [upgraded], done, x);
  }

  lemma CommitHeld(room: Room, x: Ticket)
    requires room.upgrade.Some?
    ensures Held(CommittedRoom(room), x) + One(room.upgrade.value.ticket == x) == Held(room, x)
  {
  }

  /** An abort answers the admission it gives up. */
  lemma AbortTickets(t: Table, r: RoomId, reason: string, x: Ticket)
    requires r in t.rooms && t.rooms[r].upgrade.Some? && t.rooms[r].instance.Some?
    requires forall c :: c in t.rooms[r].upgrade.value.joined ==> c in AbortedRoom(t.rooms[r]).members
    ensures Outstanding(AbortUpgrade(t, r, reason).0, x) == Outstanding(t, x)
  {
    var room := t.rooms[r];
    var i := room.instance.value;
    var t2 := Unassign(PutRoom(t, r, AbortedRoom(room)), r, i, 3);
    var t3 := Cleanup(t2, r, i, room.upgrade.value.joined, room.assignmentEpoch).0;
    CleanupSilent(t2, r, i, room.upgrade.value.joined, room.assignmentEpoch, x);
    CleanupSucceeds(t2, r, i, room.upgrade.value.joined, room.assignmentEpoch);
    AbortRooms(t, r, reason);
    var t' := AbortUpgrade(t, r, reason).0;
    OneHeld(t, t', r, x);
    AbortHeld(room, x);
    hide Cleanup, AbortedRoom;
    var why := if reason == "" then "WORKER_UNAVAILABLE" else reason;
    CompletionsPush(t3.actions, AdmissionCompleted(room.upgrade.value.ticket, Err(why)), x);
  }

  lemma AbortHeld(room: Room, x: Ticket)
    requires room.upgrade.Some?
    ensures Held(AbortedRoom(room), x) + One(room.upgrade.value.ticket == x) == Held(room, x)
  {
  }

  lemma AdvanceTickets(t: Table, r: RoomId, c: ClientId, x: Ticket)
    requires r in t.rooms && t.rooms[r].upgrade.Some?
    ensures Outstanding(PutRoom(t, r, AdvancedRoom(t.rooms[r], c)), x) == Outstanding(t, x)
  {
    OneHeld(t, PutRoom(t, r, AdvancedRoom(t.rooms[r], c)), r, x);
  }

  lemma UpgradeAckTickets(t: Table, p: PendingCommand, x: Ticket)
    requires p.UpgradeJoin? && p.join.room in t.rooms && t.rooms[p.join.room].upgrade.Some?
    requires t.rooms[p.join.room].upgrade.value.joining in t.rooms[p.join.room].members
    ensures Outstanding(UpgradeAck(t, p).0, x) == Outstanding(t, x)
  {
    hide Outstanding, CommitUpgrade, IssueNextUpgradeJoin;
    var r := p.join.room;
    var t1 := PutRoom(t, r, AdvancedRoom(t.rooms[r], p.join.client));
    AdvanceTickets(t, r, p.join.client, x);
    CommitTickets(t1, r, x);
    IssueNextTickets(t1, r, x);
  }

  lemma IssueNextTickets(t: Table, r: RoomId, x: Ticket)
    ensures IssueNextUpgradeJoin(t, r).Ok? ==> Outstanding(IssueNextUpgradeJoin(t, r).value, x) == Outstanding(t, x)
  {
    hide IssueNextUpgradeJoin;
    IssueNextSilent(t, r, x);
    IssueNextRooms(t, r);
  }

  lemma JoinEndedHeld(room: Room, x: Ticket)
    requires room.pendingJoin.Some?
    ensures var done := room.(pendingJoin := None);
            && Held(done, x) + One(room.pendingJoin.value.ticket == x) == Held(room, x)
            && Held(WithoutMember(done, room.pendingJoin.value.client), x) == Held(done, x)
  {
  }

  lemma SfuJoinActions(t: Table, i: InstanceId, p: PendingCommand, result: CommandResult, x: Ticket)
    requires p.SfuJoin? && p.join.room in t.rooms && t.rooms[p.join.room].pendingJoin.Some?
    requires p.join.client in t.rooms[p.join.room].members
    ensures Completions(SfuJoinResult(t, i, p, result).0.actions, x)
            == Completions(t.actions, x) + One(t.rooms[p.join.room].pendingJoin.value.ticket == x)
  {
    hide Joined, WithoutMember, ErrorReason, CreditWorker;
    var room := t.rooms[p.join.room];
    var ticket := room.pendingJoin.value.ticket;
    CompletionsPush(t.actions, AdmissionCompleted(ticket, Err(ErrorReason(result))), x);
    CompletionsPush(t.actions, AdmissionCompleted(ticket,
      Ok(Admission(Sfu, room.signalEpoch, room.members[p.join.client].token, None))), x);
    CreditFrame(PutRoom(t, p.join.room, room.(pendingJoin := None)), i);
  }

  lemma SfuJoinTickets(t: Table, i: InstanceId, p: PendingCommand, result: CommandResult, x: Ticket)
    requires p.SfuJoin? && p.join.room in t.rooms && t.rooms[p.join.room].pendingJoin.Some?
    requires p.join.client in t.rooms[p.join.room].members
    ensures Outstanding(SfuJoinResult(t, i, p, result).0, x) == Outstanding(t, x)
  {
    hide SfuJoinResult, Joined, WithoutMember;
    SfuJoinActions(t, i, p, result, x);
    JoinResultRooms(t, i, p, result);
    JoinEndedHeld(t.rooms[p.join.room], x);
    OneHeld(t, SfuJoinResult(t, i, p, result).0, p.join.room, x);
  }

  lemma NoticeCount(leave: PendingLeave, r: RoomId, c: ClientId, outcome: Result<(), string>, x: Ticket)
    ensures Completions(RemovalNotice(leave, r, c, outcome), x) == One(leave.ticket == Some(x))
  {
    if leave.ticket.Some? {
      CompletionsPush([], RemovalCompleted(leave.ticket.value, r, c, outcome), x);
      assert [] + [RemovalCompleted(leave.ticket.value, r, c, outcome)] == RemovalNotice(leave, r, c, outcome);
    }
  }

  lemma LeaveEndedHeld(room: Room, c: ClientId, dwell: nat, now: Instant, x: Ticket)
    requires room.pendingLeave.Some?
    ensures var done := room.(pendingLeave := None);
            && Held(done, x) + One(room.pendingLeave.value.ticket == Some(x)) == Held(room, x)
            && Held(Armed(dwell, WithoutMember(done, c), now), x) == Held(done, x)
  {
  }

  lemma SfuLeaveActions(t: Table, i: InstanceId, p: PendingCommand, result: CommandResult, now: Instant, x: Ticket)
    requires p.SfuLeave? && p.room in t.rooms && t.rooms[p.room].pendingLeave.Some?
    ensures Completions(SfuLeaveResult(t, i, p, result, now).0.actions, x)
            == Completions(t.actions, x) + One(t.rooms[p.room].pendingLeave.value.ticket == Some(x))
  {
    hide Left, Armed, ErrorReason, RemovalNotice, PutOrReap, DebitWorker, WithoutMember;
    var r, c := p.room, p.client;
    var leave := t.rooms[r].pendingLeave.value;
    var failed := RemovalNotice(leave, r, c, Err(ErrorReason(result)));
    NoticeCount(leave, r, c, Ok(()), x);
    NoticeCount(leave, r, c, Err(ErrorReason(result)), x);
    CompletionsConcat(t.actions, RemovalNotice(leave, r, c, Ok(())), x);
    CompletionsConcat(t.actions, failed, x);
    var rest := WithoutMember(t.rooms[r].(pendingLeave := None), c);
    DebitKeeps(t, i, r, rest.members == map[]);
    PutOrReapActions(PushAll(DebitWorker(t, i, r, rest.members == map[]), RemovalNotice(leave, r, c, Ok(()))), r,
                     Armed(t.dwell, rest, now));
  }

  lemma PutOrReapActions(t: Table, r: RoomId, room: Room)
    ensures PutOrReap(t, r, room).actions == t.actions
  {
  }

  lemma SfuLeaveTickets(t: Table, i: InstanceId, p: PendingCommand, result: CommandResult, now: Instant, x: Ticket)
    requires p.SfuLeave? && p.room in t.rooms && t.rooms[p.room].pendingLeave.Some?
    requires t.rooms[p.room].upgrade.None?
    requires WithoutMember(t.rooms[p.room], p.client).members == map[] ==> t.rooms[p.room].pendingJoin.None?
    ensures Outstanding(SfuLeaveResult(t, i, p, result, now).0, x) == Outstanding(t, x)
  {
    var room := t.rooms[p.room];
    var rest := WithoutMember(room.(pendingLeave := None), p.client);
    SfuLeaveActions(t, i, p, result, now, x);
    LeaveResultRooms(t, i, p, result, now);
    LeaveEndedHeld(room, p.client, t.dwell, now, x);
    assert rest.members == map[] ==> Held(room.(pendingLeave := None), x) == 0;
    hide SfuLeaveResult, Left, Armed, WithoutMember;
    OneHeld(t, SfuLeaveResult(t, i, p, result, now).0, p.room, x);
  }

  lemma ForgetTickets(t: Table, qs: set<RequestId>, x: Ticket)
    ensures Outstanding(Forget(t, qs), x) == Outstanding(t, x)
  {
  }

  lemma SyncTickets(t: Table, connection: ConnectionId, i: InstanceId, p: PendingCommand, result: CommandResult, x: Ticket)
    requires p.SyncPending? && p.instance == i && Synced(result, p.room, p.assignmentEpoch)
    ensures Outstanding(SyncResult(t, connection, i, p, result).0, x) == Outstanding(t, x)
  {
    hide PushCommands;
    PushCommandsKeeps(t, connection, p.replay);
    PushCommandsSilent(t, connection, p.replay, x);
  }

  lemma UpgradeJoinTickets(t: Table, i: InstanceId, p: PendingCommand, result: CommandResult, x: Ticket, acks: Acks)
    requires p.UpgradeJoin? && p.join.room in t.rooms && BarrierShape(p.join.room, t.rooms[p.join.room], acks)
    ensures Outstanding(UpgradeJoinResult(t, i, p, result).0, x) == Outstanding(t, x)
  {
    hide Outstanding, UpgradeAck, AbortUpgrade;
    JoinedMembers(p.join.room, t.rooms[p.join.room], acks);
    AbortTickets(t, p.join.room, ErrorReason(result), x);
    UpgradeAckTickets(t, p, x);
    hide BarrierShape;
  }

  /** The last member of a room to leave is not followed by one still joining. */
  lemma NoneLeftJoining(t: Table, r: RoomId, acks: Acks)
    requires SlotAt(t, r, acks, true) && r in t.rooms && t.rooms[r].pendingLeave.Some? && OkOpt(RoomAt(t, r), true)
    ensures var room := t.rooms[r];
            && room.upgrade.None?
            && (WithoutMember(room, room.pendingLeave.value.client).members == map[] ==> room.pendingJoin.None?)
  {
    var room := t.rooms[r];
    if room.pendingJoin.Some? {
      assert room.pendingJoin.value.client in WithoutMember(room, room.pendingLeave.value.client).members;
    }
  }

  lemma ResultTickets(t: Table, connection: ConnectionId, i: InstanceId, result: CommandResult, now: Instant,
                      x: Ticket, acks: Acks)
    requires Core(t, acks, true) && !ReachesFailRoom(t, ResultStep(connection, i, result, now))
    ensures Outstanding(HandleResult(t, connection, i, result, now).0, x) == Outstanding(t, x)
  {
    hide Core, Outstanding, SyncResult, UpgradeJoinResult, SfuJoinResult, SfuLeaveResult, SlotOk;
    if i in t.workers && t.workers[i].connection == Some(connection) && result.id in t.pending {
      var q := result.id;
      var p := t.pending[q];
      var t1 := Forget(t, {q});
      ForgetTickets(t, {q}, x);
      match p {
        case SyncPending(_, _, _, _) => SyncTickets(t1, connection, i, p, result, x);
        case UpgradeJoin(_, join) =>
          CoreRoom(t, join.room, acks);
          UpgradeRoom(t, q, acks, true);
          UpgradeJoinTickets(t1, i, p, result, x, acks);
        case SfuJoin(_, join) =>
          CoreRoom(t, join.room, acks);
          SfuJoinRoom(t, q, acks);
          SfuJoinTickets(t1, i, p, result, x);
        case SfuLeave(_, r, _, _, _) =>
          CoreRoom(t, r, acks);
          SfuLeaveRoom(t, q, acks, true);
          NoneLeftJoining(t, r, acks);
          SfuLeaveTickets(t1, i, p, result, now, x);
        case SignalPending =>
        case CleanupPending =>
      }
    }
  }

  // ---- timeouts ----

  lemma ExpiredHeld(r: RoomId, room: Room, x: Ticket)
    requires room.upgrade.None?
    ensures Held(ExpiredRoom(room), x) == 0
    ensures Completions(ExpiryNotices(r, room), x) == Held(room, x)
  {
    var admission := match room.pendingJoin
      case None => []
      case Some(join) => [AdmissionCompleted(join.ticket, Err("WORKER_UNAVAILABLE"))];
    var removal := match room.pendingLeave
      case None => []
      case Some(leave) => RemovalNotice(leave, r, leave.client, Err("WORKER_UNAVAILABLE"));
    var failed := RoomFailed(r, ExpiredRoom(room).members.Keys, "WORKER_UNAVAILABLE");
    CompletionsPush(admission + removal, failed, x);
    CompletionsConcat(admission, removal, x);
    if room.pendingJoin.Some? { CompletionsPush([], admission[0], x); assert [] + [admission[0]] == admission; }
    if room.pendingLeave.Some? {
      NoticeCount(room.pendingLeave.value, r, room.pendingLeave.value.client, Err("WORKER_UNAVAILABLE"), x);
    }
  }

  /** A hosted room whose requests expiry can answer. */
  ghost predicate Answerable(t: Table, r: RoomId, i: InstanceId) {
    Abortable(t, r, i) && (r in t.rooms && t.rooms[r].mode != Upgrading ==> t.rooms[r].upgrade.None?)
  }

  lemma ExpireRoomTickets(t: Table, r: RoomId, i: InstanceId, x: Ticket)
    requires Answerable(t, r, i)
    ensures Outstanding(ExpireRoom(t, r), x) == Outstanding(t, x)
  {
    if r in t.rooms {
      if t.rooms[r].mode == Upgrading {
        AbortTickets(t, r, "WORKER_UNAVAILABLE", x);
      } else {
        ExpiredHeld(r, t.rooms[r], x);
        CompletionsConcat(t.actions, ExpiryNotices(r, t.rooms[r]), x);
        hide ExpiredRoom, ExpiryNotices, Held;
        OneHeld(t, ExpireRoom(t, r), r, x);
      }
    }
    hide AbortUpgrade, Outstanding;
  }

  lemma {:induction false} ExpireRoomsTickets(t: Table, rooms: seq<RoomId>, i: InstanceId, x: Ticket)
    requires CommandsOk(t) && NoDuplicates(rooms) && forall r :: r in rooms ==> Answerable(t, r, i)
    ensures Outstanding(ExpireRooms(t, rooms), x) == Outstanding(t, x)
    decreases |rooms|
  {
    hide CommandsOk, ExpireRoom, AbortedRoom, AfterExpiry, Outstanding;
    if rooms != [] {
      var r, rest := rooms[0], rooms[1..];
      var t1 := ExpireRoom(t, r);
      assert r in rooms && Answerable(t, r, i);
      ExpireRoomTickets(t, r, i, x);
      ExpireRoomLog(t, r);
      forall k | k in rest ensures Answerable(t1, k, i) {
        assert k in rooms && k != r && Answerable(t, k, i);
        ExpireRoomView(t, r, i, k);
        assert RoomAt(t1, k) == RoomAt(t, k);
      }
      ExpireRoomsTickets(t1, rest, i, x);
    }
  }

  lemma ExpireWorkerTickets(t: Table, i: InstanceId, rooms: seq<RoomId>, x: Ticket, acks: Acks)
    requires Core(t, acks, true) && ExpireGuard(t, i, rooms)
    ensures Outstanding(ExpireWorker(t, i, rooms), x) == Outstanding(t, x)
  {
    AllAbortable(t, i, rooms, acks, true);
    forall r | r in rooms ensures Answerable(t, r, i) {
      CoreRoom(t, r, acks);
      RoomShapeAt(t, r);
      assert i in Hosts(t.workers, r);
      HostedRoom(t, r, i, acks, true);
    }
    ExpireRoomsTickets(t, rooms, i, x);
    hide Core, ExpireRooms;
  }

  lemma SweepSilent(t: Table, now: Instant, r: RoomId, order: seq<ClientId>, x: Ticket)
    ensures SameCompletions(t, SweepRoom(t, now, r, order).0, x)
  {
    hide CommitDowngrade, LeaveOrWait, FirstDue, PutOrReap, Survivors, PromotionOf, DueMembers, SameCompletions;
    NoCompletions(t, t, x);
    if r in t.rooms {
      var room := t.rooms[r];
      if DowngradeEligible(room) { DowngradeSilent(t, r, order, x); }
      NoCompletions(t, PutRoom(t, r, room.(downgradeDeadline := None)), x);
      hide DowngradeEligible;
      var c := FirstDue(room.members, order, now);
      if c.Some? { LeaveOrWaitSilent(t, now, r, c.value, x); }
      var kept := room.(members := room.members - DueMembers(room, now));
      PutOrReapActions(t, r, kept);
      PutOrReapActions(t, r, Survivors(kept));
      NoCompletions(t, PutOrReap(t, r, kept), x);
      NoCompletions(t, PutOrReap(t, r, Survivors(kept)), x);
    }
  }

  lemma DowngradeSilent(t: Table, r: RoomId, order: seq<ClientId>, x: Ticket)
    requires r in t.rooms && t.rooms[r].members != map[]
    ensures SameCompletions(t, CommitDowngrade(t, r, order), x)
  {
    hide DowngradedRoom, Cleanup, Unassign;
    var room := t.rooms[r];
    var room' := DowngradedRoom(room);
    var t1 := PutRoom(t, r, room');
    if room.instance.Some? {
      var released := Unassign(t1, r, room.instance.value, |room.members|);
      assert released.actions == t.actions by { UnassignActions(t1, r, room.instance.value, |room.members|); }
      CleanupSilent(released, r, room.instance.value, order, room.assignmentEpoch, x);
    }
    CompletionsPush(ReleaseWorker(t1, r, room, order).actions,
                    Downgraded(r, room'.signalEpoch, Least(room.members.Keys), SortedSeq(room.members.Keys)), x);
  }

  lemma UnassignActions(t: Table, r: RoomId, i: InstanceId, clients: nat)
    ensures Unassign(t, r, i, clients).actions == t.actions
  {
  }

  lemma SweepTicketless(trail: seq<Move>, now: Instant)
    requires forall m :: m in trail ==> SweepMove(m, now)
    ensures forall m :: m in trail ==> Ticketless(m)
  {
  }

  lemma SweepRoomTickets(t: Table, now: Instant, r: RoomId, order: seq<ClientId>, x: Ticket, acks: Acks)
    requires Core(t, acks, true)
    ensures Outstanding(SweepRoom(t, now, r, order).0, x) == Outstanding(t, x)
  {
    var t' := SweepRoom(t, now, r, order).0;
    SweepSilent(t, now, r, order, x);
    Weaken(t, true);
    TimersAt(t, r);
    hide SweepRoom, Core, RoomsOk;
    forall s: RoomId ensures HeldAt(t', s, x) == HeldAt(t, s, x) {
      var trail := SweepRoomTrail(t, now, r, order, s);
      SweepTicketless(trail, now);
      CoreRoom(t, s, acks);
      TicketlessTrail(RoomAt(t, s), trail, RoomAt(t', s), x);
    }
    SameHeld(t, t', x);
  }

  // ---- all steps ----

  lemma PollTickets(t: Table, x: Ticket)
    ensures Outstanding(PollAction(t), x) + Popped(t, PollStep, x) == Outstanding(t, x)
  {
  }

  /** Conservation: a tame step neither loses a pending request nor answers one twice. */
  lemma StepTickets(t: Table, step: Step, x: Ticket, acks: Acks)
    requires Core(t, acks, true) && ProperOrders(t, step)
    requires !ReachesFailRoom(t, step) && !LeavesJoiner(t, step)
    ensures Outstanding(Apply(t, step), x) + Popped(t, step, x) == Outstanding(t, x) + Opened(t, step, x)
  {
    match step {
      case AdmitStep(ticket, now, r, c, token) => AdmitTickets(t, ticket, now, r, c, token, x, acks);
      case RemoveStep(ticket, r, c, token) => RemoveTickets(t, ticket, r, c, token, x, acks);
      case ResultStep(connection, i, result, now) => ResultTickets(t, connection, i, result, now, x, acks);
      case TimeoutStep(now, s) =>
        var n := Outstanding(t, x);
        forall t0: Table, i, rooms | Core(t0, acks, true) && Outstanding(t0, x) == n && ExpireGuard(t0, i, rooms)
          ensures Outstanding(ExpireWorker(t0, i, rooms), x) == n
        {
          ExpireWorkerTickets(t0, i, rooms, x, acks);
        }
        forall t0: Table, r, order | Core(t0, acks, true) && Outstanding(t0, x) == n && SweepGuard(t0, now, r, order, true)
          ensures Outstanding(SweepRoom(t0, now, r, order).0, x) == n
        {
          SweepRoomTickets(t0, now, r, order, x, acks);
        }
        TimeoutKeeps(t0 => Outstanding(t0, x) == n, t, now, s, acks, true);
      case PollStep => PollTickets(t, x);
      case _ => TicketlessKeeps(t, step, x, acks);
    }
    hide Core, Outstanding, Admit, Remove, HandleResult, HandleTimeout, ExpireWorker, SweepRoom, ProperOrders,
         LeavesJoiner, ReachesFailRoom, PollAction;
  }
}
