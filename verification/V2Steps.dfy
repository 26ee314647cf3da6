/** The operations of the V2 authority as functions on its state.
    An iteration over a hash map or hash set takes its order as a parameter; every
    theorem quantifies over all such orders. */
module V2Steps {
  import opened Wrappers
  import opened Collections
  import opened Sfu
  import opened V2State

  // ---- small updates shared by the operations ----

  ghost function PutRoom(t: Table, r: RoomId, room: Room): Table {
    t.(rooms := t.rooms[r := room])
  }

  /** Store `room`, or delete the entry when its last member has gone. */
  ghost function PutOrReap(t: Table, r: RoomId, room: Room): Table {
    t.(rooms := if room.members == map[] then t.rooms - {r} else t.rooms[r := room])
  }

  ghost function PutWorker(t: Table, i: InstanceId, worker: Worker): Table {
    t.(workers := t.workers[i := worker])
  }

  ghost function Push(t: Table, action: Action): Table {
    t.(actions := t.actions + [action])
  }

  ghost function WithMember(room: Room, c: ClientId, member: Member): Room {
    room.(members := room.members[c := member])
  }

  ghost function WithoutMember(room: Room, c: ClientId): Room {
    room.(members := room.members - {c})
  }

  ghost function Connection(t: Table, i: InstanceId): Option<ConnectionId> {
    if i in t.workers then t.workers[i].connection else None
  }

  /** The connection of the worker a room is assigned to. */
  ghost function RoomConnection(t: Table, room: Room): Option<ConnectionId> {
    match room.instance
    case Some(i) => Connection(t, i)
    case None => None
  }

  function NewMember(now: Instant, grace: nat, token: string, isInitiator: bool, lifecycle: nat): Member {
    Member(token, isInitiator, lifecycle, false, Some(now + grace), [])
  }

  ghost function NextLifecycle(t: Table, r: RoomId, c: ClientId): nat {
    (if (r, c) in t.lifecycles then t.lifecycles[(r, c)] else 0) + 1
  }

  ghost function DrawLifecycle(t: Table, r: RoomId, c: ClientId): Table {
    t.(lifecycles := t.lifecycles[(r, c) := NextLifecycle(t, r, c)])
  }

  /** `next_command_id` followed by `queue_command`. */
  ghost function IssueCommand(t: Table, i: InstanceId, connection: ConnectionId, kind: CommandKind,
                              pending: PendingCommand): Table
  {
    var q := t.nextRequest;
    t.(nextRequest := q + 1,
       pending := t.pending[q := pending],
       owners := t.owners[q := i],
       unacked := t.unacked[q := Command(q, kind)],
       issued := t.issued[q := Command(q, kind)],
       actions := t.actions + [SfuOut(CommandOut(connection, Command(q, kind)))])
  }

  ghost function Forget(t: Table, qs: set<RequestId>): Table {
    t.(pending := t.pending - qs, unacked := t.unacked - qs, owners := t.owners - qs)
  }

  function SaturatingSub(a: nat, b: nat): nat {
    if a < b then 0 else a - b
  }

  predicate Due(deadline: Option<Instant>, now: Instant) {
    deadline.Some? && deadline.value <= now
  }

  // ---- worker selection ----

  predicate Selectable(worker: Worker, additional: nat) {
    && worker.health.Some?
    && worker.connection.Some?
    && worker.health.value.state == Ready
    && |worker.rooms| < worker.capacity.maxRooms
    && worker.clients + additional <= worker.capacity.maxClients
  }

  /** The order of the keys (assigned clients, assigned rooms, instance id). */
  predicate LessLoaded(i: InstanceId, a: Worker, j: InstanceId, b: Worker) {
    || a.clients < b.clients
    || (a.clients == b.clients && |a.rooms| < |b.rooms|)
    || (a.clients == b.clients && |a.rooms| == |b.rooms| && Before(i, j))
  }

  ghost predicate IsLeastLoaded(t: Table, additional: nat, i: InstanceId) {
    && i in t.workers && Selectable(t.workers[i], additional)
    && forall j :: j in t.workers && Selectable(t.workers[j], additional) && j != i ==>
         LessLoaded(i, t.workers[i], j, t.workers[j])
  }

  ghost function SelectWorker(t: Table, additional: nat): Option<InstanceId> {
    if exists i :: IsLeastLoaded(t, additional, i) then
      var i :| IsLeastLoaded(t, additional, i);
      Some(i)
    else None
  }

  // ---- admission ----

  ghost function Admit(t: Table, ticket: Ticket, now: Instant, r: RoomId, c: ClientId, token: string)
    : (Table, Result<AdmissionResult, string>)
  {
    if r !in t.rooms then
      CreateRoom(t, now, r, c, token)
    else
      var room := t.rooms[r];
      if c in room.members then (t, Err("DUPLICATE_CLIENT")) else
      match room.mode
      case Upgrading => (t, Err("ROOM_TRANSITION"))
      case Failed => (t, Err("WORKER_UNAVAILABLE"))
      case Sfu =>
        if room.pendingJoin.Some? || room.pendingLeave.Some? then (t, Err("ROOM_TRANSITION"))
        else AdmitToSfu(t, ticket, now, r, c, token)
      case P2p =>
        if |room.members| < MAX_P2P_MEMBERS then AdmitToP2p(t, now, r, c, token) else
        match SelectWorker(t, 3)
        case None => (t, Err("NO_SFU_AVAILABLE"))
        case Some(i) => StartUpgrade(t, ticket, now, r, c, token, i)
  }

  ghost function CreateRoom(t: Table, now: Instant, r: RoomId, c: ClientId, token: string)
    : (Table, Result<AdmissionResult, string>)
  {
    var member := NewMember(now, t.grace, token, true, NextLifecycle(t, r, c));
    (PutRoom(DrawLifecycle(t, r, c), r, Room(map[c := member], P2p, 0, 0, None, None, None, None, None)),
     Ok(Complete(Admission(P2p, 0, token, Some(true)))))
  }

  ghost function AdmitToP2p(t: Table, now: Instant, r: RoomId, c: ClientId, token: string)
    : (Table, Result<AdmissionResult, string>)
    requires r in t.rooms
  {
    var member := NewMember(now, t.grace, token, false, NextLifecycle(t, r, c));
    (PutRoom(DrawLifecycle(t, r, c), r, WithMember(t.rooms[r], c, member)),
     Ok(Complete(Admission(P2p, t.rooms[r].signalEpoch, token, Some(false)))))
  }

  ghost function AdmitToSfu(t: Table, ticket: Ticket, now: Instant, r: RoomId, c: ClientId, token: string)
    : (Table, Result<AdmissionResult, string>)
    requires r in t.rooms
  {
    var room := t.rooms[r];
    match RoomConnection(t, room)
    case None => (t, Err("WORKER_UNAVAILABLE"))
    case Some(connection) =>
      var i := room.instance.value;
      var lifecycle := NextLifecycle(t, r, c);
      var room' := WithMember(room, c, NewMember(now, t.grace, token, false, lifecycle))
                   .(pendingJoin := Some(PendingJoin(ticket, c)), downgradeDeadline := None);
      var join := JoinMember(r, c, lifecycle, room.assignmentEpoch);
      (IssueCommand(PutRoom(DrawLifecycle(t, r, c), r, room'), i, connection, JoinCommand(join), SfuJoin(i, join)),
       Ok(AdmissionPending))
  }

  /** Fresh lifecycle ids for the clients `cs` of room `r`. Each client draws once, from its own
      counter, so the order of the draws does not matter. */
  ghost function FreshLifecycles(t: Table, r: RoomId, cs: set<ClientId>): map<(RoomId, ClientId), nat> {
    t.lifecycles + map c | c in cs :: (r, c) := NextLifecycle(t, r, c)
  }

  ghost function Draws(t: Table, r: RoomId, cs: set<ClientId>): map<ClientId, nat> {
    map c | c in cs :: NextLifecycle(t, r, c)
  }

  ghost function Relabelled(members: map<ClientId, Member>, lifecycles: map<ClientId, nat>): map<ClientId, Member> {
    map c | c in members :: if c in lifecycles then members[c].(lifecycle := lifecycles[c]) else members[c]
  }

  /** The room behind the barrier: relabelled members, then the joiner, to be joined last. */
  ghost function BarrierRoom(room: Room, ticket: Ticket, c: ClientId, member: Member, i: InstanceId,
                             lifecycles: map<ClientId, nat>): Room
  {
    room.(members := Relabelled(room.members, lifecycles)[c := member],
          mode := Upgrading,
          assignmentEpoch := room.assignmentEpoch + 1,
          instance := Some(i),
          upgrade := Some(Upgrade(ticket, c, SortedSeq(room.members.Keys) + [c], [], 0)))
  }

  ghost function UpgradingRoom(t: Table, ticket: Ticket, now: Instant, r: RoomId, c: ClientId, token: string,
                               i: InstanceId): Room
    requires r in t.rooms
  {
    BarrierRoom(t.rooms[r], ticket, c, NewMember(now, t.grace, token, false, NextLifecycle(t, r, c)), i,
                Draws(t, r, t.rooms[r].members.Keys))
  }

  ghost function BeginUpgrade(t: Table, ticket: Ticket, now: Instant, r: RoomId, c: ClientId, token: string,
                              i: InstanceId): Table
    requires r in t.rooms && i in t.workers
  {
    var worker := t.workers[i];
    var cs := t.rooms[r].members.Keys + {c};
    PutWorker(
      PutRoom(t.(lifecycles := FreshLifecycles(t, r, cs)), r, UpgradingRoom(t, ticket, now, r, c, token, i)),
      i, worker.(rooms := worker.rooms + {r}, clients := worker.clients + 3))
  }

  ghost function StartUpgrade(t: Table, ticket: Ticket, now: Instant, r: RoomId, c: ClientId, token: string,
                              i: InstanceId): (Table, Result<AdmissionResult, string>)
    requires r in t.rooms && i in t.workers
  {
    var begun := BeginUpgrade(t, ticket, now, r, c, token, i);
    match IssueNextUpgradeJoin(begun, r)
    case Err(error) => (begun, Err(error))
    case Ok(issued) => (issued, Ok(AdmissionPending))
  }

  /** The Join for the client the barrier waits for. The index is in range in every
      reachable state; the source would panic otherwise. */
  ghost function IssueNextUpgradeJoin(t: Table, r: RoomId): Result<Table, string> {
    if r !in t.rooms then Err("ROOM_NOT_FOUND") else
    var room := t.rooms[r];
    if room.upgrade.None? then Err("ROOM_TRANSITION") else
    var upgrade := room.upgrade.value;
    if upgrade.next >= |upgrade.ordered| then Err("INDEX_OUT_OF_RANGE") else
    var c := upgrade.ordered[upgrade.next];
    if c !in room.members then Err("CLIENT_NOT_FOUND") else
    match RoomConnection(t, room)
    case None => Err("WORKER_UNAVAILABLE")
    case Some(connection) =>
      var i := room.instance.value;
      var join := JoinMember(r, c, room.members[c].lifecycle, room.assignmentEpoch);
      Ok(IssueCommand(t, i, connection, JoinCommand(join), UpgradeJoin(i, join)))
  }

  ghost function CommittedRoom(room: Room): Room {
    room.(members := map c | c in room.members :: room.members[c].(queue := [], isInitiator := false),
          mode := Sfu,
          signalEpoch := room.signalEpoch + 1,
          upgrade := None)
  }

  ghost function CommitUpgrade(t: Table, r: RoomId): (Table, Result<(), string>) {
    if r !in t.rooms then (t, Err("ROOM_NOT_FOUND")) else
    var room := t.rooms[r];
    if room.upgrade.None? then (t, Err("ROOM_TRANSITION")) else
    var upgrade := room.upgrade.value;
    var room' := CommittedRoom(room);
    var t' := PutRoom(t, r, room');
    if upgrade.joining !in room.members then (t', Err("CLIENT_NOT_FOUND")) else
    var admission := Admission(Sfu, room'.signalEpoch, room.members[upgrade.joining].token, None);
    (Push(Push(t', Upgraded(r, room'.signalEpoch, room.members.Keys - {upgrade.joining})),
          AdmissionCompleted(upgrade.ticket, Ok(admission))),
     Ok(()))
  }

  /** One Cleanup Leave for each of `clients`, in order, up to the first that is not a member. */
  ghost function CleanupLeaves(t: Table, r: RoomId, i: InstanceId, connection: ConnectionId,
                               clients: seq<ClientId>, epoch: nat): (Table, Result<(), string>)
    decreases |clients|
  {
    if clients == [] then (t, Ok(())) else
    if r !in t.rooms || clients[0] !in t.rooms[r].members then (t, Err("CLIENT_NOT_FOUND")) else
    var leave := LeaveMember(r, clients[0], t.rooms[r].members[clients[0]].lifecycle, epoch, RoomClosed);
    CleanupLeaves(IssueCommand(t, i, connection, LeaveCommand(leave), CleanupPending),
                  r, i, connection, clients[1..], epoch)
  }

  /** The Cleanup Leaves that the worker gets if it is connected. */
  ghost function Cleanup(t: Table, r: RoomId, i: InstanceId, clients: seq<ClientId>, epoch: nat)
    : (Table, Result<(), string>)
  {
    match Connection(t, i)
    case None => (t, Ok(()))
    case Some(connection) => CleanupLeaves(t, r, i, connection, clients, epoch)
  }

  ghost function Unassign(t: Table, r: RoomId, i: InstanceId, clients: nat): Table {
    t.(workers :=
         if i !in t.workers then t.workers else
         var worker := t.workers[i];
         t.workers[i := worker.(rooms := worker.rooms - {r}, clients := SaturatingSub(worker.clients, clients))])
  }

  ghost function AbortUpgrade(t: Table, r: RoomId, reason: string): (Table, Result<(), string>) {
    if r !in t.rooms then (t, Err("ROOM_NOT_FOUND")) else
    var room := t.rooms[r];
    if room.upgrade.None? then (t, Err("ROOM_TRANSITION")) else
    var upgrade := room.upgrade.value;
    var room' := WithoutMember(room, upgrade.joining).(upgrade := None, mode := P2p, instance := None);
    var t1 := PutRoom(t, r, room');
    if room.instance.None? then (t1, Err("WORKER_UNAVAILABLE")) else
    var i := room.instance.value;
    var cleaned := Cleanup(Unassign(t1, r, i, 3), r, i, upgrade.joined, room.assignmentEpoch);
    if cleaned.1.Err? then cleaned else
    (Push(cleaned.0,
          AdmissionCompleted(upgrade.ticket, Err(if reason == "" then "WORKER_UNAVAILABLE" else reason))),
     Ok(()))
  }

  // ---- browser registration and traffic ----

  /** The queues of the other members, in iteration order. */
  ghost function QueuedFor(members: map<ClientId, Member>, c: ClientId, order: seq<ClientId>): seq<string> {
    if order == [] then [] else
    (if order[0] in members && order[0] != c then members[order[0]].queue else [])
    + QueuedFor(members, c, order[1..])
  }

  ghost function RegisteredMembers(members: map<ClientId, Member>, c: ClientId, drain: bool)
    : map<ClientId, Member>
  {
    map k | k in members ::
      if k == c then members[k].(registered := true, deadline := None)
      else if drain then members[k].(queue := [])
      else members[k]
  }

  ghost function Register(t: Table, r: RoomId, c: ClientId, token: string, order: seq<ClientId>)
    : (Table, Result<Registration, string>)
  {
    if r !in t.rooms then (t, Err("UNAUTHORIZED")) else
    var room := t.rooms[r];
    if room.mode == Upgrading then (t, Err("ROOM_TRANSITION")) else
    if c !in room.members || room.members[c].token != token then (t, Err("UNAUTHORIZED")) else
    if room.members[c].registered then (t, Err("Duplicated registration")) else
    var p2p := room.mode == P2p;
    (PutRoom(t, r, room.(members := RegisteredMembers(room.members, c, p2p))),
     Ok(Registration(room.mode, room.signalEpoch,
                     if p2p then Some(room.members[c].isInitiator) else None,
                     if p2p then QueuedFor(room.members, c, order) else [])))
  }

  /** An SFU Leave for a member, when one can be sent now. */
  ghost function IssueSfuLeave(t: Table, r: RoomId, c: ClientId, ticket: Option<Ticket>, reason: LeaveReason)
    : Option<Table>
  {
    if r !in t.rooms then None else
    var room := t.rooms[r];
    if room.mode != Sfu || room.pendingLeave.Some? || c !in room.members then None else
    match RoomConnection(t, room)
    case None => None
    case Some(connection) =>
      var i := room.instance.value;
      var lifecycle := room.members[c].lifecycle;
      var leave := LeaveMember(r, c, lifecycle, room.assignmentEpoch, reason);
      Some(IssueCommand(PutRoom(t, r, room.(pendingLeave := Some(PendingLeave(ticket, c)))),
                        i, connection, LeaveCommand(leave), SfuLeave(i, r, c, lifecycle, room.assignmentEpoch)))
  }

  ghost function SetDeadline(t: Table, r: RoomId, c: ClientId, deadline: Instant): Table {
    t.(rooms :=
         if r in t.rooms && c in t.rooms[r].members then
           t.rooms[r := WithMember(t.rooms[r], c, t.rooms[r].members[c].(deadline := Some(deadline)))]
         else t.rooms)
  }

  /** A Leave now, or else a new reconnect deadline. */
  ghost function LeaveOrWait(t: Table, now: Instant, r: RoomId, c: ClientId): Table {
    match IssueSfuLeave(t, r, c, None, Disconnected)
    case Some(left) => left
    case None => SetDeadline(t, r, c, now + t.grace)
  }

  ghost function Deregister(t: Table, now: Instant, r: RoomId, c: ClientId): Table {
    if r !in t.rooms || c !in t.rooms[r].members || !t.rooms[r].members[c].registered then t else
    var room := t.rooms[r];
    var t1 := PutRoom(t, r, WithMember(room, c, room.members[c].(registered := false)));
    if room.mode == Sfu then LeaveOrWait(t1, now, r, c) else SetDeadline(t1, r, c, now + t.grace)
  }

  /** The peer of `c` that a hash-map iteration finds first. */
  ghost function FirstOther(order: seq<ClientId>, c: ClientId): Option<ClientId> {
    if order == [] then None else
    if order[0] != c then Some(order[0]) else FirstOther(order[1..], c)
  }

  ghost function Enqueue(t: Table, r: RoomId, c: ClientId, message: string): (Table, Result<SendResult, string>)
    requires r in t.rooms && c in t.rooms[r].members
  {
    var member := t.rooms[r].members[c];
    if |member.queue| >= MAX_QUEUED_MESSAGES then (t, Err("RESOURCE_EXHAUSTED")) else
    (PutRoom(t, r, WithMember(t.rooms[r], c, member.(queue := member.queue + [message]))), Ok(ToPeer(None)))
  }

  ghost function Send(t: Table, r: RoomId, c: ClientId, epoch: nat, message: string, order: seq<ClientId>)
    : (Table, Result<SendResult, string>)
  {
    if r !in t.rooms then (t, Err("CLIENT_NOT_FOUND")) else
    var room := t.rooms[r];
    if room.signalEpoch != epoch || room.mode == Upgrading then (t, Ok(Dropped)) else
    if c !in room.members then (t, Err("CLIENT_NOT_FOUND")) else
    if room.mode == Sfu then
      match RoomConnection(t, room)
      case None => (t, Err("WORKER_UNAVAILABLE"))
      case Some(connection) =>
        var signal := Signal(r, c, room.members[c].lifecycle, room.assignmentEpoch, message, None);
        (IssueCommand(t, room.instance.value, connection, SignalCommand(signal), SignalPending), Ok(ToSfu))
    else
      match FirstOther(order, c)
      case None => Enqueue(t, r, c, message)
      case Some(peer) =>
        if peer in room.members && room.members[peer].registered
        then (t, Ok(ToPeer(Some(Delivery(r, peer, message)))))
        else Enqueue(t, r, c, message)
  }

  // ---- removal ----

  /** The room left behind by a departure: a lone P2P member starts over as the initiator. */
  ghost function Survivors(room: Room): Room {
    if |room.members| != 1 || room.mode != P2p then room else
    var c :| c in room.members;
    WithMember(room, c, room.members[c].(isInitiator := true, queue := []))
  }

  /** A departure tells the survivor, when it is connected. */
  ghost function PromotionOf(r: RoomId, room: Room): Option<Promotion> {
    if |room.members| != 1 || room.mode != P2p then None else
    var c :| c in room.members;
    if room.members[c].registered then Some(Promotion(r, c, room.signalEpoch)) else None
  }

  ghost function Remove(t: Table, ticket: Ticket, r: RoomId, c: ClientId, token: string)
    : (Table, Result<RemovalResult, string>)
  {
    if r !in t.rooms then (t, Err("ROOM_NOT_FOUND")) else
    var room := t.rooms[r];
    if c !in room.members then (t, Err("CLIENT_NOT_FOUND")) else
    if room.members[c].token != token then (t, Err("UNAUTHORIZED")) else
    if room.mode == Upgrading || room.pendingJoin.Some? || room.pendingLeave.Some? then
      (t, Err("ROOM_TRANSITION")) else
    match room.mode
    case Sfu =>
      var left := IssueSfuLeave(t, r, c, Some(ticket), User);
      if left.None? then (t, Err("WORKER_UNAVAILABLE")) else (left.value, Ok(RemovalPending))
    case Failed => (PutOrReap(t, r, WithoutMember(room, c)), Ok(Removed(None)))
    case _ =>
      var rest := WithoutMember(room, c);
      (PutOrReap(t, r, Survivors(rest)), Ok(Removed(PromotionOf(r, rest))))
  }

  // ---- worker sessions ----

  /** The unacknowledged commands of worker `i` for room `r` other than SyncRooms, in iteration order. */
  ghost function Replay(t: Table, i: InstanceId, r: RoomId, commands: seq<RequestId>): seq<Command> {
    if commands == [] then [] else
    (if Replayable(t, i, r, commands[0]) then [t.unacked[commands[0]]] else [])
    + Replay(t, i, r, commands[1..])
  }

  ghost predicate Replayable(t: Table, i: InstanceId, r: RoomId, q: RequestId) {
    && q in t.owners && t.owners[q] == i
    && !(q in t.pending && t.pending[q].SyncPending?)
    && q in t.unacked && CommandRoom(t.unacked[q]) == r
  }

  ghost function Projection(room: Room): map<ClientId, nat> {
    map c | c in room.members :: room.members[c].lifecycle
  }

  ghost function ResyncRoom(t: Table, i: InstanceId, connection: ConnectionId, r: RoomId,
                            commands: seq<RequestId>): Table
  {
    if r !in t.rooms then t else
    var epoch := t.rooms[r].assignmentEpoch;
    IssueCommand(t, i, connection, SyncCommand(SyncRoom(r, epoch, Projection(t.rooms[r]))),
                 SyncPending(i, r, epoch, Replay(t, i, r, commands)))
  }

  ghost function ResyncRooms(t: Table, i: InstanceId, connection: ConnectionId, rooms: seq<RoomId>,
                             commands: seq<RequestId>): Table
    decreases |rooms|
  {
    if rooms == [] then t else
    ResyncRooms(ResyncRoom(t, i, connection, rooms[0], commands), i, connection, rooms[1..], commands)
  }

  ghost function Superseded(t: Table, i: InstanceId): set<RequestId> {
    set q | q in t.pending && t.pending[q].SyncPending? && t.pending[q].instance == i
  }

  ghost function ConnectedWorker(t: Table, i: InstanceId, connection: ConnectionId, capacity: Capacity): Worker {
    if i in t.workers
    then t.workers[i].(connection := Some(connection), capacity := capacity, health := None, deadline := None)
    else Worker(Some(connection), capacity, None, {}, 0, {}, [], None)
  }

  predicate InvalidRegistration(i: InstanceId, request: RequestId, capacity: Capacity) {
    i == "" || request == 0 || capacity.maxRooms == 0 || capacity.maxClients == 0
  }

  /** The session change alone: the new connection, the outputs that announce it, and the end of
      the SyncRooms of the previous session. */
  ghost function OpenSession(t: Table, connection: ConnectionId, i: InstanceId, request: RequestId,
                             capacity: Capacity): Table
  {
    var previous := Connection(t, i);
    var closed := if previous.Some? && previous.value != connection then [SfuOut(CloseWorker(previous.value))] else [];
    var registered := SfuOut(Registered(connection, request, HEALTH_INTERVAL_MS, i in t.workers));
    Forget(t.(workers := t.workers[i := ConnectedWorker(t, i, connection, capacity)],
              actions := t.actions + closed + [registered]),
           Superseded(t, i))
  }

  ghost function RegisterWorker(t: Table, connection: ConnectionId, i: InstanceId, request: RequestId,
                                capacity: Capacity, rooms: seq<RoomId>, commands: seq<RequestId>): Table
  {
    if InvalidRegistration(i, request, capacity) then
      Push(t, SfuOut(RegistrationError(connection, request, WorkerError("INVALID_REQUEST", false))))
    else ResyncRooms(OpenSession(t, connection, i, request, capacity), i, connection, rooms, commands)
  }

  /** The duplicate window after a fresh event id. */
  ghost function Remember(worker: Worker, id: nat): Worker {
    var seen := worker.seen + {id};
    var order := worker.seenOrder + [id];
    if |order| > EVENT_DEDUP_CAPACITY
    then worker.(seen := seen - {order[0]}, seenOrder := order[1..])
    else worker.(seen := seen, seenOrder := order)
  }

  ghost function FailRoom(t: Table, r: RoomId, reason: string): Table {
    if r !in t.rooms then t else
    t.(rooms := t.rooms[r := t.rooms[r].(mode := Failed)],
       actions := t.actions + [RoomFailed(r, t.rooms[r].members.Keys, reason)])
  }

  ghost function FailNamedRoom(t: Table, r: Option<RoomId>, reason: string): Table {
    match r
    case None => t
    case Some(room) => FailRoom(t, room, reason)
  }

  /** A worker's signal goes to its member only if room, assignment and lifecycle are current. */
  ghost function RelaySignal(t: Table, connection: ConnectionId, i: InstanceId, id: nat, signal: Signal)
    : (Table, Result<(), string>)
  {
    if signal.room !in t.rooms then (t, Err("ROOM_NOT_FOUND")) else
    var room := t.rooms[signal.room];
    if signal.client !in room.members then (t, Err("CLIENT_NOT_FOUND")) else
    if room.mode != Sfu || room.instance != Some(i) || room.assignmentEpoch != signal.assignmentEpoch
       || room.members[signal.client].lifecycle != signal.lifecycle
    then (t, Err("STALE_ASSIGNMENT")) else
    (PushAll(t, [Deliver(Delivery(signal.room, signal.client, signal.message)), SfuOut(EventAck(connection, id))]),
     Ok(()))
  }

  ghost function HandleEvent(t: Table, connection: ConnectionId, i: InstanceId, event: Event)
    : (Table, Result<(), string>)
  {
    if i !in t.workers then (t, Err("UNKNOWN_SFU")) else
    if t.workers[i].connection != Some(connection) || event.id == 0 then (t, Err("STALE_SFU_SESSION")) else
    if event.id in t.workers[i].seen then (Push(t, SfuOut(EventAck(connection, event.id))), Ok(())) else
    FreshEvent(PutWorker(t, i, Remember(t.workers[i], event.id)), connection, i, event)
  }

  ghost function FreshEvent(t: Table, connection: ConnectionId, i: InstanceId, event: Event)
    : (Table, Result<(), string>)
    requires i in t.workers
  {
    match event.kind
    case HealthEvent(health) =>
      var healthy := t.workers[i].(capacity := health.capacity, health := Some(health));
      (Push(PutWorker(t, i, healthy), SfuOut(EventAck(connection, event.id))), Ok(()))
    case SignalEvent(signal) => RelaySignal(t, connection, i, event.id, signal)
    case FailureEvent(error, failed) =>
      (Push(FailNamedRoom(t, failed, error.reason), SfuOut(EventAck(connection, event.id))), Ok(()))
  }

  ghost function LoseWorker(t: Table, connection: ConnectionId, i: InstanceId, now: Instant): Table {
    if i in t.workers && t.workers[i].connection == Some(connection) then
      PutWorker(t, i, t.workers[i].(connection := None, health := None, deadline := Some(now + t.grace)))
    else t
  }

  // ---- command results ----

  function ErrorReason(result: CommandResult): string {
    match result.result
    case Ok(_) => "INVALID_COMMAND_RESULT"
    case Err(error) => error.reason
  }

  predicate Synced(result: CommandResult, r: RoomId, epoch: nat) {
    result.result == Ok(RoomSynced(r, epoch))
  }

  predicate Joined(result: CommandResult, join: JoinMember) {
    result.result == Ok(MemberJoined(join))
  }

  predicate Left(result: CommandResult, pending: PendingCommand)
    requires pending.SfuLeave?
  {
    result.result.Ok? && result.result.value.MemberLeft? &&
    var left := result.result.value.leave;
    left.room == pending.room && left.client == pending.client
    && left.lifecycle == pending.lifecycle && left.assignmentEpoch == pending.assignmentEpoch
  }

  ghost function PushCommands(t: Table, connection: ConnectionId, commands: seq<Command>): Table
    decreases |commands|
  {
    if commands == [] then t else
    PushCommands(Push(t, SfuOut(CommandOut(connection, commands[0]))), connection, commands[1..])
  }

  ghost function SyncResult(t: Table, connection: ConnectionId, i: InstanceId, pending: PendingCommand,
                            result: CommandResult): (Table, Result<(), string>)
    requires pending.SyncPending?
  {
    if pending.instance != i || !Synced(result, pending.room, pending.assignmentEpoch)
    then (FailRoom(t, pending.room, "WORKER_UNAVAILABLE"), Ok(()))
    else (PushCommands(t, connection, pending.replay), Ok(()))
  }

  ghost function AdvancedRoom(room: Room, c: ClientId): Room
    requires room.upgrade.Some?
  {
    var upgrade := room.upgrade.value;
    room.(upgrade := Some(upgrade.(joined := upgrade.joined + [c], next := upgrade.next + 1)))
  }

  ghost function UpgradeJoinResult(t: Table, i: InstanceId, pending: PendingCommand, result: CommandResult)
    : (Table, Result<(), string>)
    requires pending.UpgradeJoin?
  {
    var r := pending.join.room;
    if pending.instance != i || !Joined(result, pending.join) then AbortUpgrade(t, r, ErrorReason(result)) else
    UpgradeAck(t, pending)
  }

  /** A matching MemberJoined moves the barrier on. Nothing compares its client with the one awaited. */
  ghost function UpgradeAck(t: Table, pending: PendingCommand): (Table, Result<(), string>)
    requires pending.UpgradeJoin?
  {
    var r := pending.join.room;
    if r !in t.rooms then (t, Err("ROOM_NOT_FOUND")) else
    var room := t.rooms[r];
    if room.upgrade.None? then (t, Err("ROOM_TRANSITION")) else
    var t1 := PutRoom(t, r, AdvancedRoom(room, pending.join.client));
    if room.upgrade.value.next + 1 == |room.upgrade.value.ordered| then CommitUpgrade(t1, r) else
    match IssueNextUpgradeJoin(t1, r)
    case Err(error) => (t1, Err(error))
    case Ok(issued) => (issued, Ok(()))
  }

  ghost function CreditWorker(t: Table, i: InstanceId): Table {
    t.(workers := if i !in t.workers then t.workers
                  else t.workers[i := t.workers[i].(clients := t.workers[i].clients + 1)])
  }

  ghost function SfuJoinResult(t: Table, i: InstanceId, pending: PendingCommand, result: CommandResult)
    : (Table, Result<(), string>)
    requires pending.SfuJoin?
  {
    var r := pending.join.room;
    if r !in t.rooms then (t, Err("ROOM_NOT_FOUND")) else
    var room := t.rooms[r];
    if room.pendingJoin.None? then (t, Err("ROOM_TRANSITION")) else
    var awaited := room.pendingJoin.value;
    var room' := room.(pendingJoin := None);
    if pending.instance == i && Joined(result, pending.join) then
      var t1 := CreditWorker(PutRoom(t, r, room'), i);
      if pending.join.client !in room.members then (t1, Err("CLIENT_NOT_FOUND")) else
      var admission := Admission(Sfu, room.signalEpoch, room.members[pending.join.client].token, None);
      (Push(t1, AdmissionCompleted(awaited.ticket, Ok(admission))), Ok(()))
    else
      (Push(PutRoom(t, r, WithoutMember(room', awaited.client)),
            AdmissionCompleted(awaited.ticket, Err(ErrorReason(result)))), Ok(()))
  }

  predicate DowngradeEligible(room: Room) {
    && room.mode == Sfu
    && room.members != map[]
    && |room.members| <= MAX_P2P_MEMBERS
    && room.upgrade.None? && room.pendingJoin.None? && room.pendingLeave.None?
  }

  ghost function Armed(dwell: nat, room: Room, now: Instant): Room {
    if !DowngradeEligible(room) then room.(downgradeDeadline := None)
    else if room.downgradeDeadline.None? then room.(downgradeDeadline := Some(now + dwell))
    else room
  }

  ghost function DebitWorker(t: Table, i: InstanceId, r: RoomId, empty: bool): Table {
    t.(workers :=
         if i !in t.workers then t.workers else
         var worker := t.workers[i];
         t.workers[i := worker.(clients := SaturatingSub(worker.clients, 1),
                                rooms := if empty then worker.rooms - {r} else worker.rooms)])
  }

  /** The answer to a removal request, when the Leave came from one. */
  ghost function RemovalNotice(leave: PendingLeave, r: RoomId, c: ClientId, outcome: Result<(), string>)
    : seq<Action>
  {
    match leave.ticket
    case None => []
    case Some(ticket) => [RemovalCompleted(ticket, r, c, outcome)]
  }

  ghost function PushAll(t: Table, actions: seq<Action>): Table {
    t.(actions := t.actions + actions)
  }

  ghost function SfuLeaveResult(t: Table, i: InstanceId, pending: PendingCommand, result: CommandResult,
                                now: Instant): (Table, Result<(), string>)
    requires pending.SfuLeave?
  {
    var r, c := pending.room, pending.client;
    if r !in t.rooms then (t, Err("ROOM_NOT_FOUND")) else
    var room := t.rooms[r];
    if room.pendingLeave.None? then (t, Err("ROOM_TRANSITION")) else
    var leave := room.pendingLeave.value;
    var room' := room.(pendingLeave := None);
    if pending.instance == i && Left(result, pending) then
      var rest := WithoutMember(room', c);
      var debited := DebitWorker(t, i, r, rest.members == map[]);
      (PutOrReap(PushAll(debited, RemovalNotice(leave, r, c, Ok(()))), r, Armed(t.dwell, rest, now)), Ok(()))
    else
      (PushAll(PutRoom(t, r, room'), RemovalNotice(leave, r, c, Err(ErrorReason(result)))), Ok(()))
  }

  ghost function HandleResult(t: Table, connection: ConnectionId, i: InstanceId, result: CommandResult,
                              now: Instant): (Table, Result<(), string>)
  {
    if i !in t.workers then (t, Err("UNKNOWN_SFU")) else
    if t.workers[i].connection != Some(connection) then (t, Err("STALE_SFU_SESSION")) else
    if result.id !in t.pending then (t, Ok(())) else
    var pending := t.pending[result.id];
    var t1 := Forget(t, {result.id});
    match pending
    case SyncPending(_, _, _, _) => SyncResult(t1, connection, i, pending, result)
    case UpgradeJoin(_, _) => UpgradeJoinResult(t1, i, pending, result)
    case SfuJoin(_, _) => SfuJoinResult(t1, i, pending, result)
    case SfuLeave(_, _, _, _, _) => SfuLeaveResult(t1, i, pending, result, now)
    case SignalPending => (t1, Ok(()))
    case CleanupPending => (t1, Ok(()))
  }

  // ---- timeouts ----

  /** The iteration orders that one timeout sweep meets: the expired workers, the rooms of each of
      them, all rooms, and the members of each room. */
  datatype Schedule = Schedule(
    workers: seq<InstanceId>,
    hosted: map<InstanceId, seq<RoomId>>,
    rooms: seq<RoomId>,
    members: map<RoomId, seq<ClientId>>)

  ghost function ExpiredRoom(room: Room): Room {
    var kept := if room.pendingJoin.Some? then WithoutMember(room, room.pendingJoin.value.client) else room;
    kept.(pendingJoin := None, pendingLeave := None, mode := Failed)
  }

  ghost function ExpireRoom(t: Table, r: RoomId): Table {
    if r !in t.rooms then t else
    var room := t.rooms[r];
    if room.mode == Upgrading then AbortUpgrade(t, r, "WORKER_UNAVAILABLE").0 else
    t.(rooms := t.rooms[r := ExpiredRoom(room)], actions := t.actions + ExpiryNotices(r, room))
  }

  /** The answers to the requests that were waiting on the expired worker, and the failure notice. */
  ghost function ExpiryNotices(r: RoomId, room: Room): seq<Action> {
    var admission := match room.pendingJoin
      case None => []
      case Some(join) => [AdmissionCompleted(join.ticket, Err("WORKER_UNAVAILABLE"))];
    var removal := match room.pendingLeave
      case None => []
      case Some(leave) => RemovalNotice(leave, r, leave.client, Err("WORKER_UNAVAILABLE"));
    admission + removal + [RoomFailed(r, ExpiredRoom(room).members.Keys, "WORKER_UNAVAILABLE")]
  }

  ghost function ExpireRooms(t: Table, rooms: seq<RoomId>): Table
    decreases |rooms|
  {
    if rooms == [] then t else ExpireRooms(ExpireRoom(t, rooms[0]), rooms[1..])
  }

  ghost function CommandsOf(t: Table, i: InstanceId): set<RequestId> {
    set q | q in t.owners && t.owners[q] == i
  }

  ghost function ExpireWorker(t: Table, i: InstanceId, rooms: seq<RoomId>): Table {
    var t1 := ExpireRooms(t, rooms);
    Forget(t1, CommandsOf(t1, i)).(workers :=
      if i in t1.workers then t1.workers[i := t1.workers[i].(deadline := None, rooms := {}, clients := 0)]
      else t1.workers)
  }

  ghost function ExpireWorkers(t: Table, workers: seq<InstanceId>, hosted: map<InstanceId, seq<RoomId>>): Table
    decreases |workers|
  {
    if workers == [] then t else
    var i := workers[0];
    ExpireWorkers(ExpireWorker(t, i, Listing(hosted, i)), workers[1..], hosted)
  }

  ghost function DowngradedRoom(room: Room): Room
    requires room.members != map[]
  {
    assert room.members.Keys != {};
    var initiator := Least(room.members.Keys);
    room.(members := map c | c in room.members ::
                       room.members[c].(queue := [], isInitiator := c == initiator),
          mode := P2p,
          signalEpoch := room.signalEpoch + 1,
          instance := None,
          downgradeDeadline := None)
  }

  ghost function CommitDowngrade(t: Table, r: RoomId, order: seq<ClientId>): Table
    requires r in t.rooms && t.rooms[r].members != map[]
  {
    var room := t.rooms[r];
    var room' := DowngradedRoom(room);
    Push(ReleaseWorker(PutRoom(t, r, room'), r, room, order),
         Downgraded(r, room'.signalEpoch, Least(room.members.Keys), SortedSeq(room.members.Keys)))
  }

  /** Free the assignment of `room` and tear down the worker's side of every member. */
  ghost function ReleaseWorker(t: Table, r: RoomId, room: Room, order: seq<ClientId>): Table {
    match room.instance
    case None => t
    case Some(i) => Cleanup(Unassign(t, r, i, |room.members|), r, i, order, room.assignmentEpoch).0
  }

  /** The first member in iteration order whose reconnect deadline has passed. */
  ghost function FirstDue(members: map<ClientId, Member>, order: seq<ClientId>, now: Instant): Option<ClientId> {
    if order == [] then None else
    if order[0] in members && Due(members[order[0]].deadline, now) then Some(order[0])
    else FirstDue(members, order[1..], now)
  }

  ghost function DueMembers(room: Room, now: Instant): set<ClientId> {
    set c | c in room.members && Due(room.members[c].deadline, now)
  }

  ghost function SweepP2p(t: Table, now: Instant, r: RoomId): (Table, Option<Promotion>)
    requires r in t.rooms
  {
    var room := t.rooms[r];
    var due := DueMembers(room, now);
    var kept := room.(members := room.members - due);
    if due == {} then (PutOrReap(t, r, kept), None) else
    (PutOrReap(t, r, Survivors(kept)), PromotionOf(r, kept))
  }

  ghost function SweepRoom(t: Table, now: Instant, r: RoomId, order: seq<ClientId>): (Table, Option<Promotion>) {
    if r !in t.rooms then (t, None) else
    var room := t.rooms[r];
    if Due(room.downgradeDeadline, now) then (SweepDowngrade(t, r, order), None) else
    match room.mode
    case Sfu => (SweepSfu(t, now, r, order), None)
    case P2p => SweepP2p(t, now, r)
    case _ => (t, None)
  }

  ghost function SweepDowngrade(t: Table, r: RoomId, order: seq<ClientId>): Table
    requires r in t.rooms
  {
    if DowngradeEligible(t.rooms[r]) then CommitDowngrade(t, r, order)
    else PutRoom(t, r, t.rooms[r].(downgradeDeadline := None))
  }

  /** Retry the Leave of the first member whose grace is over, if no Leave is in flight. */
  ghost function SweepSfu(t: Table, now: Instant, r: RoomId, order: seq<ClientId>): Table
    requires r in t.rooms
  {
    var room := t.rooms[r];
    if room.pendingLeave.Some? then t else
    match FirstDue(room.members, order, now)
    case None => t
    case Some(c) => LeaveOrWait(t, now, r, c)
  }

  ghost function SweepRooms(t: Table, now: Instant, rooms: seq<RoomId>, members: map<RoomId, seq<ClientId>>)
    : (Table, seq<Promotion>)
    decreases |rooms|
  {
    if rooms == [] then (t, []) else
    var r := rooms[0];
    var (t1, promotion) := SweepRoom(t, now, r, Listing(members, r));
    var (t2, promotions) := SweepRooms(t1, now, rooms[1..], members);
    (t2, (if promotion.Some? then [promotion.value] else []) + promotions)
  }

  ghost function HandleTimeout(t: Table, now: Instant, s: Schedule): (Table, seq<Promotion>) {
    SweepRooms(ExpireWorkers(t, s.workers, s.hosted), now, s.rooms, s.members)
  }

  /** The deadlines of room members that count toward the next timeout. */
  predicate Polled(room: Room) {
    room.mode == P2p || (room.mode == Sfu && room.pendingLeave.None?)
  }

  ghost predicate HasDeadline(t: Table, d: Instant) {
    || (exists r, c :: r in t.rooms && Polled(t.rooms[r]) && c in t.rooms[r].members
          && t.rooms[r].members[c].deadline == Some(d))
    || (exists i :: i in t.workers && t.workers[i].deadline == Some(d))
    || (exists r :: r in t.rooms && t.rooms[r].downgradeDeadline == Some(d))
  }

  /** `poll_timeout` returns the earliest counted deadline, if there is one. */
  ghost predicate IsNextTimeout(t: Table, next: Option<Instant>) {
    match next
    case None => forall d :: !HasDeadline(t, d)
    case Some(d) => HasDeadline(t, d) && forall e :: HasDeadline(t, e) ==> d <= e
  }

  ghost function PollAction(t: Table): Table {
    if t.actions == [] then t else t.(actions := t.actions[1..])
  }

  // ---- one step of a run ----

  datatype Step =
    | AdmitStep(ticket: Ticket, now: Instant, room: RoomId, client: ClientId, token: string)
    | RegisterStep(room: RoomId, client: ClientId, token: string, order: seq<ClientId>)
    | DeregisterStep(now: Instant, room: RoomId, client: ClientId)
    | SendStep(room: RoomId, client: ClientId, epoch: nat, message: string, order: seq<ClientId>)
    | RemoveStep(ticket: Ticket, room: RoomId, client: ClientId, token: string)
    | WorkerStep(connection: ConnectionId, instance: InstanceId, request: RequestId, capacity: Capacity,
                 rooms: seq<RoomId>, commands: seq<RequestId>)
    | ResultStep(connection: ConnectionId, instance: InstanceId, result: CommandResult, now: Instant)
    | EventStep(connection: ConnectionId, instance: InstanceId, event: Event)
    | LostStep(connection: ConnectionId, instance: InstanceId, now: Instant)
    | TimeoutStep(now: Instant, schedule: Schedule)
    | PollStep

  ghost function Apply(t: Table, step: Step): Table {
    match step
    case AdmitStep(ticket, now, r, c, token) => Admit(t, ticket, now, r, c, token).0
    case RegisterStep(r, c, token, order) => Register(t, r, c, token, order).0
    case DeregisterStep(now, r, c) => Deregister(t, now, r, c)
    case SendStep(r, c, epoch, message, order) => Send(t, r, c, epoch, message, order).0
    case RemoveStep(ticket, r, c, token) => Remove(t, ticket, r, c, token).0
    case WorkerStep(connection, i, request, capacity, rooms, commands) =>
      RegisterWorker(t, connection, i, request, capacity, rooms, commands)
    case ResultStep(connection, i, result, now) => HandleResult(t, connection, i, result, now).0
    case EventStep(connection, i, event) => HandleEvent(t, connection, i, event).0
    case LostStep(connection, i, now) => LoseWorker(t, connection, i, now)
    case TimeoutStep(now, schedule) => HandleTimeout(t, now, schedule).0
    case PollStep => PollAction(t)
  }

  // ---- the two assumptions on the environment that some results need ----

  /** The step reaches `fail_room`: a fresh Failure event that names a room, or a SyncRoom result
      that does not match. */
  ghost predicate ReachesFailRoom(t: Table, step: Step) {
    match step
    case EventStep(connection, i, event) =>
      && i in t.workers && t.workers[i].connection == Some(connection) && event.id != 0
      && event.id !in t.workers[i].seen
      && event.kind.FailureEvent? && event.kind.room.Some?
    case ResultStep(connection, i, result, _) =>
      && i in t.workers && t.workers[i].connection == Some(connection) && result.id in t.pending
      && var p := t.pending[result.id];
         p.SyncPending? && !(p.instance == i && Synced(result, p.room, p.assignmentEpoch))
    case _ => false
  }

  /** A Leave for some member of the room could be sent now. */
  ghost predicate LeaveCanGo(t: Table, room: Room) {
    room.mode == Sfu && room.pendingLeave.None? && RoomConnection(t, room).Some?
  }

  ghost predicate Awaits(room: Room, c: ClientId) {
    room.pendingJoin.Some? && room.pendingJoin.value.client == c
  }

  /** The sweep would not pick the client whose Join is in flight, or could not send its Leave. */
  ghost predicate SparesJoiner(t: Table, now: Instant, r: RoomId, order: seq<ClientId>) {
    r in t.rooms && t.rooms[r].pendingJoin.Some? && LeaveCanGo(t, t.rooms[r]) ==>
      FirstDue(t.rooms[r].members, order, now) != Some(t.rooms[r].pendingJoin.value.client)
  }

  /** The step sends a Leave for the client whose own SfuJoin is still in flight. */
  ghost predicate LeavesJoiner(t: Table, step: Step) {
    match step
    case DeregisterStep(_, r, c) =>
      && r in t.rooms && c in t.rooms[r].members && t.rooms[r].members[c].registered
      && Awaits(t.rooms[r], c) && LeaveCanGo(t, t.rooms[r])
    case TimeoutStep(now, s) =>
      var mid := ExpireWorkers(t, s.workers, s.hosted);
      exists r :: r in mid.rooms && !SparesJoiner(mid, now, r, Listing(s.members, r))
    case _ => false
  }

  // ---- which iteration orders a step can meet ----

  ghost function DueWorkers(t: Table, now: Instant): set<InstanceId> {
    set i | i in t.workers && Due(t.workers[i].deadline, now)
  }

  ghost predicate ListsMembers(t: Table, r: RoomId, order: seq<ClientId>) {
    r in t.rooms ==> Lists(order, t.rooms[r].members.Keys)
  }

  /** Each expired worker meets its rooms in some order, as the expiries before it left them. */
  ghost predicate ExpiryOrders(t: Table, workers: seq<InstanceId>, hosted: map<InstanceId, seq<RoomId>>)
    decreases |workers|
  {
    workers == [] ||
    var i := workers[0];
    var rooms := Listing(hosted, i);
    && i in t.workers && Lists(rooms, t.workers[i].rooms)
    && ExpiryOrders(ExpireWorker(t, i, rooms), workers[1..], hosted)
  }

  ghost predicate TimeoutOrders(t: Table, now: Instant, s: Schedule) {
    && Lists(s.workers, DueWorkers(t, now))
    && ExpiryOrders(t, s.workers, s.hosted)
    && var mid := ExpireWorkers(t, s.workers, s.hosted);
       && Lists(s.rooms, mid.rooms.Keys)
       && forall r :: r in mid.rooms ==> Lists(Listing(s.members, r), mid.rooms[r].members.Keys)
  }

  ghost predicate ProperOrders(t: Table, step: Step) {
    match step
    case RegisterStep(r, _, _, order) => ListsMembers(t, r, order)
    case SendStep(r, _, _, _, order) => ListsMembers(t, r, order)
    case WorkerStep(connection, i, request, capacity, rooms, commands) =>
      var session := OpenSession(t, connection, i, request, capacity);
      Lists(rooms, session.workers[i].rooms) && Lists(commands, session.owners.Keys)
    case TimeoutStep(now, s) => TimeoutOrders(t, now, s)
    case _ => true
  }
}
