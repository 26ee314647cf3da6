/** The state of the V2 room and worker authority, as values.
    Clocks are naturals, and the counters that saturate at the top of their range in
    the source are unbounded here. */
module V2State {
  import opened Wrappers
  import opened Sfu

  const MAX_P2P_MEMBERS := 2
  const MAX_QUEUED_MESSAGES := 1024
  const HEALTH_INTERVAL_MS := 30000
  const EVENT_DEDUP_CAPACITY := 4096

  type Instant = nat
  type Ticket = nat  // the request id of an authority command awaiting its response

  datatype RoomMode = P2p | Upgrading | Sfu | Failed

  datatype Member = Member(
    token: string,
    isInitiator: bool,
    lifecycle: nat,
    registered: bool,
    deadline: Option<Instant>,
    queue: seq<string>)

  datatype Upgrade = Upgrade(
    ticket: Ticket,
    joining: ClientId,
    ordered: seq<ClientId>,
    joined: seq<ClientId>,
    next: nat)

  datatype PendingJoin = PendingJoin(ticket: Ticket, client: ClientId)
  datatype PendingLeave = PendingLeave(ticket: Option<Ticket>, client: ClientId)

  datatype Room = Room(
    members: map<ClientId, Member>,
    mode: RoomMode,
    signalEpoch: nat,
    assignmentEpoch: nat,
    instance: Option<InstanceId>,
    upgrade: Option<Upgrade>,
    pendingJoin: Option<PendingJoin>,
    pendingLeave: Option<PendingLeave>,
    downgradeDeadline: Option<Instant>)

  datatype Worker = Worker(
    connection: Option<ConnectionId>,
    capacity: Capacity,
    health: Option<Health>,
    rooms: set<RoomId>,
    clients: nat,
    seen: set<nat>,
    seenOrder: seq<nat>,
    deadline: Option<Instant>)

  datatype PendingCommand =
    | SyncPending(instance: InstanceId, room: RoomId, assignmentEpoch: nat, replay: seq<Command>)
    | UpgradeJoin(instance: InstanceId, join: JoinMember)
    | SfuJoin(instance: InstanceId, join: JoinMember)
    | SfuLeave(instance: InstanceId, room: RoomId, client: ClientId, lifecycle: nat, assignmentEpoch: nat)
    | SignalPending
    | CleanupPending

  datatype Admission = Admission(mode: RoomMode, signalEpoch: nat, token: string, isInitiator: Option<bool>)
  datatype AdmissionResult = Complete(admission: Admission) | AdmissionPending
  datatype Registration =
    Registration(mode: RoomMode, signalEpoch: nat, isInitiator: Option<bool>, queued: seq<string>)
  datatype Delivery = Delivery(room: RoomId, client: ClientId, message: string)
  datatype Promotion = Promotion(room: RoomId, client: ClientId, signalEpoch: nat)
  datatype RemovalResult = Removed(promotion: Option<Promotion>) | RemovalPending
  datatype SendResult = ToPeer(delivery: Option<Delivery>) | ToSfu | Dropped

  /** Client lists that the source collects from hash-map order are sets here. */
  datatype Action =
    | SfuOut(output: Output)
    | AdmissionCompleted(ticket: Ticket, admission: Result<Admission, string>)
    | RemovalCompleted(ticket: Ticket, room: RoomId, client: ClientId, removal: Result<(), string>)
    | Upgraded(room: RoomId, signalEpoch: nat, existing: set<ClientId>)
    | Downgraded(room: RoomId, signalEpoch: nat, initiator: ClientId, clients: seq<ClientId>)
    | Deliver(delivery: Delivery)
    | RoomFailed(room: RoomId, members: set<ClientId>, reason: string)

  /** `issued` is a history that no operation reads: every command ever put in flight. */
  datatype Table = Table(
    rooms: map<RoomId, Room>,
    workers: map<InstanceId, Worker>,
    lifecycles: map<(RoomId, ClientId), nat>,
    pending: map<RequestId, PendingCommand>,
    unacked: map<RequestId, Command>,
    owners: map<RequestId, InstanceId>,
    issued: map<RequestId, Command>,
    nextRequest: RequestId,
    grace: nat,
    dwell: nat,
    actions: seq<Action>)

  function EmptyTable(grace: nat, dwell: nat): Table {
    Table(map[], map[], map[], map[], map[], map[], map[], 1, grace, dwell, [])
  }
}
