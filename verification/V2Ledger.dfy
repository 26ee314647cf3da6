/** The books of the workers: what a worker is charged with is what its rooms amount to. */
module V2Ledger {
  import opened Wrappers
  import opened Collections
  import opened Sfu
  import opened V2State
  import opened V2Steps
  import opened V2Rooms
  import opened V2Moves
  import opened V2RoomSteps
  import opened V2Commands
  import opened V2Slots
  import opened V2SlotSteps
  import opened V2SlotTimers

  /** The clients a room puts on its worker: its members, except one that is still joining. */
  ghost function Load(room: Room): nat {
    if room.pendingJoin.Some? && room.members != map[] then |room.members| - 1 else |room.members|
  }

  ghost function Share(room: Room, i: InstanceId): nat {
    if Active(room) && room.instance == Some(i) then Load(room) else 0
  }

  ghost function ShareOn(i: InstanceId): Room -> nat {
    room => Share(room, i)
  }

  ghost function ShareAt(t: Table, r: RoomId, i: InstanceId): nat {
    if r in t.rooms then Share(t.rooms[r], i) else 0
  }

  ghost function ClientsOf(t: Table, i: InstanceId): nat {
    if i in t.workers then t.workers[i].clients else 0
  }

  /** The client count of worker `i` is the sum of the loads of the rooms assigned to it. */
  ghost predicate Books(t: Table, i: InstanceId) {
    ClientsOf(t, i) == Sum(t.rooms, ShareOn(i))
  }

  // ---- sums when one room changes ----

  ghost predicate OnlyRoom(t: Table, t': Table, r: RoomId) {
    t'.rooms - {r} == t.rooms - {r}
  }

  lemma SumApart(t: Table, r: RoomId, i: InstanceId)
    ensures Sum(t.rooms, ShareOn(i)) == ShareAt(t, r, i) + Sum(t.rooms - {r}, ShareOn(i))
  {
    if r in t.rooms {
      SumRemove(t.rooms, ShareOn(i), r);
    } else {
      assert t.rooms - {r} == t.rooms;
    }
  }

  /** A balanced change of one room keeps the books. */
  lemma Balanced(t: Table, t': Table, r: RoomId, i: InstanceId)
    requires Books(t, i) && OnlyRoom(t, t', r)
    requires ClientsOf(t', i) + ShareAt(t, r, i) == ClientsOf(t, i) + ShareAt(t', r, i)
    ensures Books(t', i)
  {
    SumApart(t, r, i);
    SumApart(t', r, i);
  }

  lemma ShareWithin(t: Table, r: RoomId, i: InstanceId)
    requires Books(t, i)
    ensures ShareAt(t, r, i) <= ClientsOf(t, i)
  {
    SumApart(t, r, i);
  }

  lemma PutOnly(t: Table, t': Table, r: RoomId)
    requires t'.rooms == t.rooms - {r} || (r in t'.rooms && t'.rooms == t.rooms[r := t'.rooms[r]]) || t'.rooms == t.rooms
    ensures OnlyRoom(t, t', r)
  {
  }

  lemma SameShares(t: Table, t': Table, i: InstanceId)
    requires Books(t, i) && ClientsOf(t', i) == ClientsOf(t, i)
    requires forall s: RoomId :: ShareAt(t', s, i) == ShareAt(t, s, i)
    ensures Books(t', i)
  {
    forall s ensures ValueAt(t'.rooms, ShareOn(i), s) == ValueAt(t.rooms, ShareOn(i), s) {
      assert ShareAt(t', s, i) == ShareAt(t, s, i);
    }
    SumPointwise(t.rooms, t'.rooms, ShareOn(i));
  }

  // ---- moves that leave every share alone ----

  /** Moves that neither put members on a worker nor take them off. */
  ghost predicate Weightless(m: Move) {
    match m
    case UpgradeBegun(_, _, _, _, _) => false
    case UpgradeAborted => false
    case JoinEnded(accepted) => !accepted
    case LeaveEnded(left, _, _, _) => !left
    case Expired => false
    case RoomDowngraded => false
    case ForceFailed => false
    case _ => true
  }

  ghost function ShareOpt(a: Option<Room>, i: InstanceId): nat {
    if a.Some? then Share(a.value, i) else 0
  }

  ghost predicate JoinerPresent(a: Option<Room>) {
    a.Some? && a.value.pendingJoin.Some? ==>
      a.value.mode == Sfu && a.value.pendingJoin.value.client in a.value.members
  }

  lemma SizeKept(a: map<ClientId, Member>, b: map<ClientId, Member>)
    requires a.Keys == b.Keys
    ensures |a| == |b| && (a == map[] <==> b == map[])
  {
    assert |a| == |a.Keys| && |b| == |b.Keys|;
  }

  lemma JoinShares(room: Room, c: ClientId, member: Member, ticket: Ticket, i: InstanceId)
    requires c !in room.members && room.pendingJoin.None?
    ensures Share(WithMember(room, c, member).(pendingJoin := Some(PendingJoin(ticket, c)), downgradeDeadline := None), i)
            == Share(room, i)
  {
    MemberCounts(room.members, c, member);
  }

  lemma WeightlessShare(a: Option<Room>, m: Move, i: InstanceId)
    requires Enabled(a, m) && Weightless(m) && JoinerPresent(a) && OkOpt(a, true)
    ensures ShareOpt(Moved(a, m), i) == ShareOpt(a, i) && JoinerPresent(Moved(a, m))
  {
    if a.Some? {
      var room := a.value;
      match m {
        case JoinBegun(ticket, c, member) => JoinShares(room, c, member, ticket, i);
        case MemberRegistered(c) =>
          SizeKept(room.members, RegisteredMembers(room.members, c, room.mode == P2p));
        case MemberDeregistered(c) => SizeKept(room.members, room.members[c := room.members[c].(registered := false)]);
        case GraceSet(c, d) => SizeKept(room.members, room.members[c := room.members[c].(deadline := Some(d))]);
        case UpgradeCommitted(c) => SizeKept(room.members, CommittedRoom(AdvancedRoom(room, c)).members);
        case JoinEnded(_) =>
          var c := room.pendingJoin.value.client;
          MemberCounts(room.members, c, room.members[c]);
        case _ =>
      }
    }
  }

  lemma {:induction false} WeightlessTrail(a: Option<Room>, trail: seq<Move>, b: Option<Room>, i: InstanceId)
    requires Follows(a, trail, b) && (forall m :: m in trail ==> Weightless(m)) && JoinerPresent(a) && OkOpt(a, true)
    ensures ShareOpt(b, i) == ShareOpt(a, i) && JoinerPresent(b)
    decreases |trail|
  {
    hide Enabled, Moved, OkOpt, JoinerPresent, ShareOpt;
    if trail != [] {
      assert trail[0] in trail && Weightless(trail[0]);
      WeightlessShare(a, trail[0], i);
      MoveKeepsRoom(a, trail[0], true);
      assert forall m :: m in trail[1..] ==> m in trail;
      WeightlessTrail(Moved(a, trail[0]), trail[1..], b, i);
    }
  }

  lemma CoreAt(t: Table, s: RoomId, acks: Acks)
    requires Core(t, acks, true)
    ensures OkOpt(RoomAt(t, s), true) && JoinerPresent(RoomAt(t, s)) && SlotAt(t, s, acks, true)
  {
    assert SlotAt(t, s, acks, true);
  }

  /** Steps whose moves are all weightless. */
  ghost predicate WeightlessStep(step: Step) {
    step.RegisterStep? || step.DeregisterStep? || step.SendStep? || step.RemoveStep? || step.WorkerStep?
    || step.EventStep? || step.LostStep? || step.PollStep?
  }

  lemma WeightlessMade(step: Step, trail: seq<Move>)
    requires AllMade(step, trail) && Unforced(trail) && WeightlessStep(step)
    ensures forall m :: m in trail ==> Weightless(m)
  {
  }

  lemma SendClients(t: Table, r: RoomId, c: ClientId, epoch: nat, message: string, order: seq<ClientId>, i: InstanceId)
    ensures ClientsOf(Send(t, r, c, epoch, message, order).0, i) == ClientsOf(t, i)
  {
  }

  lemma BrowserClients(t: Table, now: Instant, r: RoomId, c: ClientId, i: InstanceId)
    ensures ClientsOf(Deregister(t, now, r, c), i) == ClientsOf(t, i)
  {
    hide SetDeadline;
    SetDeadlineClients(t, r, c, i);
  }

  lemma SetDeadlineClients(t: Table, r: RoomId, c: ClientId, i: InstanceId)
    ensures forall t0: Table, d :: t0.workers == t.workers ==> SetDeadline(t0, r, c, d).workers == t.workers
  {
  }

  lemma RemoveClients(t: Table, ticket: Ticket, r: RoomId, c: ClientId, token: string, i: InstanceId)
    ensures ClientsOf(Remove(t, ticket, r, c, token).0, i) == ClientsOf(t, i)
  {
    hide Survivors, PromotionOf;
  }

  lemma WorkerClients(t: Table, connection: ConnectionId, i: InstanceId, request: RequestId, capacity: Capacity,
                      rooms: seq<RoomId>, commands: seq<RequestId>, j: InstanceId)
    requires CommandsOk(t)
    ensures ClientsOf(RegisterWorker(t, connection, i, request, capacity, rooms, commands), j) == ClientsOf(t, j)
  {
    hide ResyncRooms, CommandsOk, EmitsFresh;
    RegisterWorkerLog(t, connection, i, request, capacity, rooms, commands);
    ResyncSlots(OpenSession(t, connection, i, request, capacity), i, connection, rooms, commands, Uuid([]));
  }

  lemma WeightlessClients(t: Table, step: Step, i: InstanceId)
    requires WeightlessStep(step) && !ReachesFailRoom(t, step) && CommandsOk(t)
    ensures ClientsOf(Apply(t, step), i) == ClientsOf(t, i)
  {
    hide Register, Deregister, Send, Remove, RegisterWorker, HandleEvent, CommandsOk, QueuedFor;
    match step {
      case RegisterStep(r, c, token, order) => RegisterClients(t, r, c, token, order);
      case DeregisterStep(now, r, c) => BrowserClients(t, now, r, c, i);
      case SendStep(r, c, epoch, message, order) => SendClients(t, r, c, epoch, message, order, i);
      case RemoveStep(ticket, r, c, token) => RemoveClients(t, ticket, r, c, token, i);
      case WorkerStep(connection, j, request, capacity, rooms, commands) =>
        WorkerClients(t, connection, j, request, capacity, rooms, commands, i);
      case EventStep(connection, j, event) => EventFrame(t, connection, j, event);
      case LostStep(_, _, _) =>
      case PollStep =>
    }
  }

  lemma RegisterClients(t: Table, r: RoomId, c: ClientId, token: string, order: seq<ClientId>)
    ensures Register(t, r, c, token, order).0.workers == t.workers
  {
  }

  lemma WeightlessBooks(t: Table, step: Step, i: InstanceId, acks: Acks)
    requires Core(t, acks, true) && Books(t, i) && ProperOrders(t, step)
    requires WeightlessStep(step) && !ReachesFailRoom(t, step)
    ensures Books(Apply(t, step), i)
  {
    var t' := Apply(t, step);
    WeightlessClients(t, step, i);
    Weaken(t, true);
    hide Apply, Core, RoomsOk, WeightlessStep, ReachesFailRoom, ProperOrders, Books;
    forall s: RoomId ensures ShareAt(t', s, i) == ShareAt(t, s, i) {
      var trail := StepTrail(t, step, s);
      WeightlessMade(step, trail);
      CoreAt(t, s, acks);
      WeightlessTrail(RoomAt(t, s), trail, RoomAt(t', s), i);
    }
    SameShares(t, t', i);
  }

  // ---- admission ----

  lemma BarrierLoad(room: Room, ticket: Ticket, c: ClientId, member: Member, i: InstanceId, lifecycles: map<ClientId, nat>)
    requires RoomShape(room) && room.mode == P2p && |room.members| == MAX_P2P_MEMBERS && c !in room.members
    ensures Load(BarrierRoom(room, ticket, c, member, i, lifecycles)) == 3
  {
    RelabelledOk(room.members, lifecycles);
    MemberCounts(Relabelled(room.members, lifecycles), c, member);
  }

  lemma StartUpgradeBooks(t: Table, ticket: Ticket, now: Instant, r: RoomId, c: ClientId, token: string,
                          w: InstanceId, i: InstanceId)
    requires Books(t, i) && r in t.rooms && w in t.workers && RoomShape(t.rooms[r])
    requires t.rooms[r].mode == P2p && c !in t.rooms[r].members && |t.rooms[r].members| >= MAX_P2P_MEMBERS
    ensures Books(StartUpgrade(t, ticket, now, r, c, token, w).0, i)
  {
    hide BarrierRoom, Books, Draws;
    var room := t.rooms[r];
    var t' := StartUpgrade(t, ticket, now, r, c, token, w).0;
    StartUpgradeRooms(t, ticket, now, r, c, token, w);
    PutOnly(t, t', r);
    BarrierLoad(room, ticket, c, NewMember(now, t.grace, token, false, NextLifecycle(t, r, c)), w,
                Draws(t, r, room.members.Keys));
    var after := UpgradingRoom(t, ticket, now, r, c, token, w);
    assert after.mode == Upgrading && after.instance == Some(w) by { BarrierFields(t, ticket, now, r, c, token, w); }
    hide StartUpgrade, RoomShape;
    StartUpgradeClients(t, ticket, now, r, c, token, w, i);
    Balanced(t, t', r, i);
  }

  lemma BarrierFields(t: Table, ticket: Ticket, now: Instant, r: RoomId, c: ClientId, token: string, w: InstanceId)
    requires r in t.rooms
    ensures var after := UpgradingRoom(t, ticket, now, r, c, token, w);
            after.mode == Upgrading && after.instance == Some(w)
  {
  }

  lemma StartUpgradeClients(t: Table, ticket: Ticket, now: Instant, r: RoomId, c: ClientId, token: string,
                            w: InstanceId, i: InstanceId)
    requires r in t.rooms && w in t.workers
    ensures ClientsOf(StartUpgrade(t, ticket, now, r, c, token, w).0, i)
            == ClientsOf(t, i) + if i == w then 3 else 0
  {
    hide UpgradingRoom, FreshLifecycles;
  }

  lemma AdmitToSfuBooks(t: Table, ticket: Ticket, now: Instant, r: RoomId, c: ClientId, token: string, i: InstanceId)
    requires Books(t, i) && r in t.rooms && t.rooms[r].mode == Sfu && c !in t.rooms[r].members
    requires t.rooms[r].pendingJoin.None?
    ensures Books(AdmitToSfu(t, ticket, now, r, c, token).0, i)
  {
    hide Books, Share;
    var t' := AdmitToSfu(t, ticket, now, r, c, token).0;
    JoinShares(t.rooms[r], c, NewMember(now, t.grace, token, false, NextLifecycle(t, r, c)), ticket, i);
    if RoomConnection(t, t.rooms[r]).Some? {
      PutOnly(t, t', r);
      Balanced(t, t', r, i);
    }
  }

  lemma AdmitBooks(t: Table, ticket: Ticket, now: Instant, r: RoomId, c: ClientId, token: string, i: InstanceId)
    requires Books(t, i) && (r in t.rooms ==> RoomShape(t.rooms[r]))
    ensures Books(Admit(t, ticket, now, r, c, token).0, i)
  {
    hide Books, StartUpgrade, AdmitToSfu, Selectable, LessLoaded, RoomShape;
    if r !in t.rooms {
      var t' := CreateRoom(t, now, r, c, token).0;
      PutOnly(t, t', r);
      Balanced(t, t', r, i);
    } else if c !in t.rooms[r].members {
      var room := t.rooms[r];
      if room.mode == Sfu {
        if room.pendingJoin.None? { AdmitToSfuBooks(t, ticket, now, r, c, token, i); }
      } else if room.mode == P2p {
        var t' := AdmitToP2p(t, now, r, c, token).0;
        PutOnly(t, t', r);
        Balanced(t, t', r, i);
        if |room.members| >= MAX_P2P_MEMBERS && SelectWorker(t, 3).Some? {
          StartUpgradeBooks(t, ticket, now, r, c, token, SelectWorker(t, 3).value, i);
        }
      }
    }
  }

  // ---- results ----

  lemma UnassignClients(t: Table, r: RoomId, w: InstanceId, clients: nat, i: InstanceId)
    ensures ClientsOf(Unassign(t, r, w, clients), i)
            == if i == w then SaturatingSub(ClientsOf(t, i), clients) else ClientsOf(t, i)
  {
  }

  /** What an aborted barrier charged is given back in full: the subtraction does not clamp. */
  lemma AbortBooks(t: Table, r: RoomId, reason: string, i: InstanceId)
    requires Books(t, i) && r in t.rooms && RoomOk(t.rooms[r], true) && t.rooms[r].mode == Upgrading
    requires t.rooms[r].instance.Some?
    ensures Books(AbortUpgrade(t, r, reason).0, i)
  {
    var room := t.rooms[r];
    var w := room.instance.value;
    var t1 := PutRoom(t, r, AbortedRoom(room));
    var t2 := Unassign(t1, r, w, 3);
    AbortRooms(t, r, reason);
    CleanupFrame(t2, r, w, room.upgrade.value.joined, room.assignmentEpoch);
    UnassignClients(t1, r, w, 3, i);
    ShareWithin(t, r, i);
    var t' := AbortUpgrade(t, r, reason).0;
    assert t'.workers == t2.workers by { hide Books, RoomOk, Cleanup, Unassign; }
    PutOnly(t, t', r);
    hide Books, Cleanup, Unassign, AbortUpgrade;
    Balanced(t, t', r, i);
  }

  lemma ForgetBooks(t: Table, qs: set<RequestId>, i: InstanceId)
    requires Books(t, i)
    ensures Books(Forget(t, qs), i)
  {
  }

  lemma CommitShare(room: Room, c: ClientId, i: InstanceId)
    requires room.mode == Upgrading && room.upgrade.Some?
    ensures Share(CommittedRoom(AdvancedRoom(room, c)), i) == Share(room, i)
    ensures Share(AdvancedRoom(room, c), i) == Share(room, i)
  {
    SizeKept(room.members, CommittedRoom(AdvancedRoom(room, c)).members);
  }

  lemma UpgradeAckBooks(t: Table, p: PendingCommand, i: InstanceId)
    requires Books(t, i) && p.UpgradeJoin?
    requires p.join.room in t.rooms && t.rooms[p.join.room].mode == Upgrading && t.rooms[p.join.room].upgrade.Some?
    ensures Books(UpgradeAck(t, p).0, i)
  {
    hide Books, CommittedRoom, CommitUpgrade, IssueNextUpgradeJoin, Share;
    var r := p.join.room;
    var room := t.rooms[r];
    var t1 := PutRoom(t, r, AdvancedRoom(room, p.join.client));
    CommitRooms(t1, r);
    CommitWorkers(t1, r);
    IssueNextRooms(t1, r);
    IssueNextWorkers(t1, r);
    CommitShare(room, p.join.client, i);
    var t' := UpgradeAck(t, p).0;
    PutOnly(t, t', r);
    Balanced(t, t', r, i);
  }

  lemma CommitWorkers(t: Table, r: RoomId)
    ensures CommitUpgrade(t, r).0.workers == t.workers
  {
    hide CommittedRoom;
    if r in t.rooms && t.rooms[r].upgrade.Some? {
      hide PutRoom;
      assert PutRoom(t, r, CommittedRoom(t.rooms[r])).workers == t.workers by { PutRoomWorkers(t, r, CommittedRoom(t.rooms[r])); }
    }
  }

  lemma PutRoomWorkers(t: Table, r: RoomId, room: Room)
    ensures PutRoom(t, r, room).workers == t.workers
  {
  }

  lemma IssueNextWorkers(t: Table, r: RoomId)
    ensures IssueNextUpgradeJoin(t, r).Ok? ==> IssueNextUpgradeJoin(t, r).value.workers == t.workers
  {
  }

  lemma JoinedShare(room: Room, i: InstanceId)
    requires room.pendingJoin.Some? && room.pendingJoin.value.client in room.members
    ensures Share(room.(pendingJoin := None), i)
            == Share(room, i) + if Active(room) && room.instance == Some(i) then 1 else 0
    ensures Share(WithoutMember(room.(pendingJoin := None), room.pendingJoin.value.client), i) == Share(room, i)
  {
    var c := room.pendingJoin.value.client;
    MemberCounts(room.members, c, room.members[c]);
  }

  lemma CreditClients(t: Table, w: InstanceId, i: InstanceId)
    ensures ClientsOf(CreditWorker(t, w), i) == ClientsOf(t, i) + if i == w && w in t.workers then 1 else 0
  {
  }

  lemma SfuJoinBooks(t: Table, w: InstanceId, p: PendingCommand, result: CommandResult, i: InstanceId)
    requires Books(t, i) && p.SfuJoin? && w in t.workers
    requires p.join.room in t.rooms
    requires var room := t.rooms[p.join.room];
             room.mode == Sfu && room.pendingJoin.Some? && room.pendingJoin.value.client in room.members
             && room.instance == Some(p.instance)
    ensures Books(SfuJoinResult(t, w, p, result).0, i)
  {
    hide Books, Joined, SfuJoinResult, CreditWorker, Share, WithoutMember;
    JoinResultRooms(t, w, p, result);
    JoinedShare(t.rooms[p.join.room], i);
    CreditClients(t, w, i);
    var t' := SfuJoinResult(t, w, p, result).0;
    PutOnly(t, t', p.join.room);
    Balanced(t, t', p.join.room, i);
  }

  lemma DebitClients(t: Table, w: InstanceId, r: RoomId, empty: bool, i: InstanceId)
    ensures ClientsOf(DebitWorker(t, w, r, empty), i)
            == if i == w then SaturatingSub(ClientsOf(t, i), 1) else ClientsOf(t, i)
  {
  }

  lemma LeftShare(room: Room, c: ClientId, dwell: nat, now: Instant, i: InstanceId)
    requires room.pendingLeave.Some? && room.mode == Sfu && c in room.members && !Awaits(room, c)
    requires room.pendingJoin.Some? ==> room.pendingJoin.value.client in room.members
    ensures var rest := WithoutMember(room.(pendingLeave := None), c);
            && Share(Armed(dwell, rest, now), i) + (if room.instance == Some(i) then 1 else 0) == Share(room, i)
            && (rest.members == map[] ==> Share(room, i) == if room.instance == Some(i) then 1 else 0)
    ensures Share(room.(pendingLeave := None), i) == Share(room, i)
  {
    MemberCounts(room.members, c, room.members[c]);
    var rest := WithoutMember(room.(pendingLeave := None), c);
    if room.pendingJoin.Some? { assert room.pendingJoin.value.client in rest.members; }
  }

  lemma SfuLeaveBooks(t: Table, w: InstanceId, p: PendingCommand, result: CommandResult, now: Instant, i: InstanceId)
    requires Books(t, i) && p.SfuLeave? && p.room in t.rooms
    requires var room := t.rooms[p.room];
             && room.pendingLeave.Some? && room.mode == Sfu && p.client in room.members && !Awaits(room, p.client)
             && (room.pendingJoin.Some? ==> room.pendingJoin.value.client in room.members)
             && room.instance == Some(p.instance)
    ensures Books(SfuLeaveResult(t, w, p, result, now).0, i)
  {
    hide Left, Armed, SfuLeaveResult, DebitWorker, Share, WithoutMember, Books;
    var r := p.room;
    var room := t.rooms[r];
    var rest := WithoutMember(room.(pendingLeave := None), p.client);
    LeaveResultRooms(t, w, p, result, now);
    LeftShare(room, p.client, t.dwell, now, i);
    DebitClients(t, w, r, rest.members == map[], i);
    ShareWithin(t, r, i);
    var t' := SfuLeaveResult(t, w, p, result, now).0;
    PutOnly(t, t', r);
    Balanced(t, t', r, i);
  }

  lemma SyncBooks(t: Table, connection: ConnectionId, w: InstanceId, p: PendingCommand, result: CommandResult,
                  i: InstanceId)
    requires Books(t, i) && p.SyncPending? && p.instance == w && Synced(result, p.room, p.assignmentEpoch)
    ensures Books(SyncResult(t, connection, w, p, result).0, i)
  {
    PushCommandsKeeps(t, connection, p.replay);
  }

  lemma ResultBooks(t: Table, connection: ConnectionId, w: InstanceId, result: CommandResult, now: Instant,
                    i: InstanceId, acks: Acks)
    requires Core(t, acks, true) && Books(t, i)
    requires !ReachesFailRoom(t, ResultStep(connection, w, result, now))
    ensures Books(HandleResult(t, connection, w, result, now).0, i)
  {
    hide CommandsOk, RoomOk, SlotAt, Books, SyncResult, UpgradeJoinResult, SfuJoinResult, SfuLeaveResult;
    if w in t.workers && t.workers[w].connection == Some(connection) && result.id in t.pending {
      var q := result.id;
      var p := t.pending[q];
      var t1 := Forget(t, {q});
      ForgetBooks(t, {q}, i);
      match p {
        case SyncPending(_, _, _, _) => SyncBooks(t1, connection, w, p, result, i);
        case UpgradeJoin(_, join) =>
          assert SlotAt(t, join.room, acks, true);
          UpgradeRoom(t, q, acks, true);
          UpgradeJoinBooks(t1, w, p, result, i);
        case SfuJoin(_, join) =>
          assert SlotAt(t, join.room, acks, true);
          SfuJoinRoom(t, q, acks);
          SfuJoinBooks(t1, w, p, result, i);
        case SfuLeave(_, r, _, _, _) =>
          assert SlotAt(t, r, acks, true);
          SfuLeaveRoom(t, q, acks, true);
          LeaverFacts(t, r, acks);
          SfuLeaveBooks(t1, w, p, result, now, i);
        case SignalPending =>
        case CleanupPending =>
      }
    }
  }

  lemma UpgradeJoinBooks(t: Table, w: InstanceId, p: PendingCommand, result: CommandResult, i: InstanceId)
    requires Books(t, i) && p.UpgradeJoin? && p.join.room in t.rooms && RoomOk(t.rooms[p.join.room], true)
    requires t.rooms[p.join.room].mode == Upgrading && t.rooms[p.join.room].instance.Some?
    ensures Books(UpgradeJoinResult(t, w, p, result).0, i)
  {
    hide Books, UpgradeAck, AbortUpgrade;
    AbortBooks(t, p.join.room, ErrorReason(result), i);
    UpgradeAckBooks(t, p, i);
  }

  /** The client of a Leave in flight is a member, and is not the one joining. */
  lemma LeaverFacts(t: Table, r: RoomId, acks: Acks)
    requires SlotAt(t, r, acks, true) && r in t.rooms && t.rooms[r].pendingLeave.Some?
    ensures var room := t.rooms[r];
            && room.pendingLeave.value.client in room.members && !Awaits(room, room.pendingLeave.value.client)
            && (room.pendingJoin.Some? ==> room.pendingJoin.value.client in room.members)
  {
  }

  // ---- timeouts ----

  lemma DowngradeBooks(t: Table, r: RoomId, order: seq<ClientId>, i: InstanceId)
    requires Books(t, i) && r in t.rooms && DowngradeEligible(t.rooms[r]) && t.rooms[r].instance.Some?
    ensures Books(CommitDowngrade(t, r, order), i)
  {
    var room := t.rooms[r];
    var w := room.instance.value;
    var t1 := PutRoom(t, r, DowngradedRoom(room));
    var t2 := Unassign(t1, r, w, |room.members|);
    DowngradeRooms(t, r, order);
    CleanupFrame(t2, r, w, order, room.assignmentEpoch);
    UnassignClients(t1, r, w, |room.members|, i);
    ShareWithin(t, r, i);
    var t' := CommitDowngrade(t, r, order);
    assert t'.workers == t2.workers by { hide Books, Cleanup, Unassign, DowngradedRoom; }
    PutOnly(t, t', r);
    assert DowngradedRoom(room).mode == P2p;
    hide Books, Cleanup, Unassign, CommitDowngrade, DowngradedRoom;
    Balanced(t, t', r, i);
  }

  lemma SweepRoomBooks(t: Table, now: Instant, r: RoomId, order: seq<ClientId>, i: InstanceId, acks: Acks)
    requires Core(t, acks, true) && Books(t, i)
    ensures Books(SweepRoom(t, now, r, order).0, i)
  {
    hide Core, Books, CommitDowngrade, SweepSfu, SweepP2p;
    CoreAt(t, r, acks);
    if r in t.rooms && Due(t.rooms[r].downgradeDeadline, now) && DowngradeEligible(t.rooms[r]) {
      assert HostsOk(t.rooms[r], Hosts(t.workers, r));
      DowngradeBooks(t, r, order, i);
    } else {
      OtherSweepBooks(t, now, r, order, i, acks);
    }
  }

  lemma SweepWeightless(trail: seq<Move>, now: Instant)
    requires forall m :: m in trail ==> SweepMove(m, now) && !m.RoomDowngraded?
    ensures forall m :: m in trail ==> Weightless(m)
  {
  }

  lemma SweepSfuBooks(t: Table, now: Instant, r: RoomId, order: seq<ClientId>, i: InstanceId, acks: Acks)
    requires Core(t, acks, true) && Books(t, i) && r in t.rooms
    ensures Books(SweepSfu(t, now, r, order), i)
  {
    hide Books, Core, SweepSfu, Follows;
    var t' := SweepSfu(t, now, r, order);
    SweepWorkers(t, now, r, order);
    CoreTimers(t, r, acks);
    forall s: RoomId ensures ShareAt(t', s, i) == ShareAt(t, s, i) {
      CoreAt(t, s, acks);
      var trail := SweepSfuTrail(t, now, r, order, s);
      SweepWeightless(trail, now);
      WeightlessTrail(RoomAt(t, s), trail, RoomAt(t', s), i);
    }
    SameShares(t, t', i);
  }

  lemma SweepP2pBooks(t: Table, now: Instant, r: RoomId, i: InstanceId, acks: Acks)
    requires Core(t, acks, true) && Books(t, i) && r in t.rooms && t.rooms[r].mode == P2p
    ensures Books(SweepP2p(t, now, r).0, i)
  {
    hide Books, Core, SweepP2p, Follows;
    var t' := SweepP2p(t, now, r).0;
    SweepWorkers(t, now, r, []);
    forall s: RoomId ensures ShareAt(t', s, i) == ShareAt(t, s, i) {
      CoreAt(t, s, acks);
      var trail := SweepP2pTrail(t, now, r, s);
      SweepWeightless(trail, now);
      WeightlessTrail(RoomAt(t, s), trail, RoomAt(t', s), i);
    }
    SameShares(t, t', i);
  }

  lemma OtherSweepBooks(t: Table, now: Instant, r: RoomId, order: seq<ClientId>, i: InstanceId, acks: Acks)
    requires Core(t, acks, true) && Books(t, i)
    requires !(r in t.rooms && Due(t.rooms[r].downgradeDeadline, now) && DowngradeEligible(t.rooms[r]))
    ensures Books(SweepRoom(t, now, r, order).0, i)
  {
    hide Books, Core, SweepSfu, SweepP2p, DowngradeEligible;
    if r in t.rooms {
      Balanced(t, PutRoom(t, r, t.rooms[r].(downgradeDeadline := None)), r, i);
      SweepSfuBooks(t, now, r, order, i, acks);
      if t.rooms[r].mode == P2p { SweepP2pBooks(t, now, r, i, acks); }
    }
  }

  lemma CoreTimers(t: Table, r: RoomId, acks: Acks)
    requires Core(t, acks, true)
    ensures r in t.rooms ==> Timers(t.rooms[r].members)
  {
  }

  lemma NotHosted(t: Table, s: RoomId, i: InstanceId, acks: Acks)
    requires SlotAt(t, s, acks, true) && i !in Hosts(t.workers, s)
    ensures ShareAt(t, s, i) == 0
  {
  }

  lemma HostedElsewhere(t: Table, s: RoomId, i: InstanceId, j: InstanceId, acks: Acks)
    requires SlotAt(t, s, acks, true) && i in Hosts(t.workers, s) && j != i
    ensures ShareAt(t, s, j) == 0
  {
  }

  lemma AfterExpiryShare(room: Room, i: InstanceId)
    requires room.mode == Upgrading ==> room.upgrade.Some?
    ensures Share(AfterExpiry(room), i) == 0
  {
  }

  /** After expiry a room of the worker weighs nothing, and the other rooms what they did. */
  lemma ExpiredShares(t: Table, i: InstanceId, rooms: seq<RoomId>, s: RoomId, j: InstanceId, acks: Acks)
    requires Core(t, acks, true) && ExpireGuard(t, i, rooms)
    ensures ShareAt(ExpireWorker(t, i, rooms), s, j) == if j == i then 0 else ShareAt(t, s, j)
  {
    AllAbortable(t, i, rooms, acks, true);
    assert SlotAt(t, s, acks, true);
    ExpireWorkerView(t, i, rooms, s);
    assert ViewOf(ExpireWorker(t, i, rooms), s).room == RoomAt(ExpireWorker(t, i, rooms), s);
    assert i in Hosts(t.workers, s) <==> s in rooms;
    hide Core, SlotOk, ExpireWorker, AfterExpiry, Share, Slot, CommandsOf;
    if s in rooms {
      if s in t.rooms { AfterExpiryShare(t.rooms[s], j); }
      if j != i { HostedElsewhere(t, s, i, j, acks); }
    } else if j == i {
      NotHosted(t, s, i, acks);
    }
  }

  lemma ExpiredClients(t: Table, i: InstanceId, rooms: seq<RoomId>)
    requires i in t.workers && OthersKept(t, ExpireWorker(t, i, rooms), i)
    ensures forall j :: ClientsOf(ExpireWorker(t, i, rooms), j) == if j == i then 0 else ClientsOf(t, j)
  {
    hide ExpireRooms;
  }

  lemma ExpireWorkerBooks(t: Table, i: InstanceId, rooms: seq<RoomId>, j: InstanceId, acks: Acks)
    requires Core(t, acks, true) && Books(t, j) && ExpireGuard(t, i, rooms)
    ensures Books(ExpireWorker(t, i, rooms), j)
  {
    hide Core, ExpireWorker, Books;
    var t' := ExpireWorker(t, i, rooms);
    ExpireWorkerCore(t, i, rooms, acks, true);
    ExpiredClients(t, i, rooms);
    forall s: RoomId ensures ShareAt(t', s, j) == if j == i then 0 else ShareAt(t, s, j) {
      ExpiredShares(t, i, rooms, s, j, acks);
    }
    if j == i {
      forall s | s in t'.rooms ensures ShareOn(j)(t'.rooms[s]) == 0 {
        assert ShareAt(t', s, j) == 0;
      }
      SumZero(t'.rooms, ShareOn(j));
      assert Books(t', j) by { BooksZero(t', j); }
    } else {
      SameShares(t, t', j);
    }
  }

  lemma BooksZero(t: Table, i: InstanceId)
    requires ClientsOf(t, i) == 0 && Sum(t.rooms, ShareOn(i)) == 0
    ensures Books(t, i)
  {
  }

  // ---- all steps ----

  /** Every tame step keeps the books of every worker. */
  lemma StepBooks(t: Table, step: Step, i: InstanceId, acks: Acks)
    requires Core(t, acks, true) && Books(t, i) && ProperOrders(t, step)
    requires !ReachesFailRoom(t, step) && !LeavesJoiner(t, step)
    ensures Books(Apply(t, step), i)
  {
    match step {
      case AdmitStep(ticket, now, r, c, token) =>
        RoomShapeAt(t, r);
        AdmitBooks(t, ticket, now, r, c, token, i);
      case ResultStep(connection, w, result, now) => ResultBooks(t, connection, w, result, now, i, acks);
      case TimeoutStep(now, s) =>
        forall t0: Table, w, rooms | Core(t0, acks, true) && Books(t0, i) && ExpireGuard(t0, w, rooms)
          ensures Books(ExpireWorker(t0, w, rooms), i)
        {
          ExpireWorkerBooks(t0, w, rooms, i, acks);
        }
        forall t0: Table, r, order | Core(t0, acks, true) && Books(t0, i) && SweepGuard(t0, now, r, order, true)
          ensures Books(SweepRoom(t0, now, r, order).0, i)
        {
          SweepRoomBooks(t0, now, r, order, i, acks);
        }
        TimeoutKeeps(t0 => Books(t0, i), t, now, s, acks, true);
      case _ => WeightlessBooks(t, step, i, acks);
    }
    hide Core, Books, Admit, HandleResult, HandleTimeout, ExpireWorker, SweepRoom, ProperOrders, LeavesJoiner,
         ReachesFailRoom;
  }
}
