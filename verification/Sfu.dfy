/** The worker control plane: commands, their results, worker events and outputs
    (the source's transport-independent message types). */
module Sfu {
  import opened Wrappers

  /** A 128-bit identifier; `RoomToken` says which values name a room. */
  type Byte = b: nat | b < 256
  datatype Uuid = Uuid(bytes: seq<Byte>)

  type RoomId = Uuid
  type ClientId = nat
  type InstanceId = string
  type ConnectionId = nat
  type RequestId = nat

  datatype Capacity = Capacity(maxRooms: nat, maxClients: nat)
  datatype WorkerState = Ready | Draining
  datatype Health = Health(state: WorkerState, capacity: Capacity, currentRooms: nat, currentClients: nat)

  datatype JoinMember = JoinMember(room: RoomId, client: ClientId, lifecycle: nat, assignmentEpoch: nat)
  datatype LeaveReason = User | Disconnected | RoomClosed | WorkerFailure
  datatype LeaveMember =
    LeaveMember(room: RoomId, client: ClientId, lifecycle: nat, assignmentEpoch: nat, reason: LeaveReason)
  /** `members` maps each projected client to its lifecycle id. */
  datatype SyncRoom = SyncRoom(room: RoomId, assignmentEpoch: nat, members: map<ClientId, nat>)
  datatype Signal =
    Signal(room: RoomId, client: ClientId, lifecycle: nat, assignmentEpoch: nat, message: string,
           sdpRequest: Option<nat>)

  datatype CommandKind =
    | SyncCommand(sync: SyncRoom)
    | JoinCommand(join: JoinMember)
    | LeaveCommand(leave: LeaveMember)
    | SignalCommand(signal: Signal)

  datatype Command = Command(id: RequestId, kind: CommandKind)

  datatype CommandOk =
    | Acknowledged
    | RoomSynced(room: RoomId, assignmentEpoch: nat)
    | MemberJoined(join: JoinMember)
    | MemberLeft(leave: LeaveMember)

  datatype WorkerError = WorkerError(reason: string, retryable: bool)
  datatype CommandResult = CommandResult(id: RequestId, result: Result<CommandOk, WorkerError>)

  datatype EventKind =
    | SignalEvent(signal: Signal)
    | HealthEvent(health: Health)
    | FailureEvent(error: WorkerError, room: Option<RoomId>)
  datatype Event = Event(id: RequestId, kind: EventKind)

  datatype Output =
    | Registered(connection: ConnectionId, request: RequestId, healthIntervalMs: nat, resumed: bool)
    | RegistrationError(connection: ConnectionId, request: RequestId, error: WorkerError)
    | CommandOut(connection: ConnectionId, command: Command)
    | EventAck(connection: ConnectionId, request: RequestId)
    | CloseWorker(connection: ConnectionId)

  /** The room a command is about. */
  function CommandRoom(command: Command): RoomId {
    match command.kind
    case SyncCommand(sync) => sync.room
    case JoinCommand(join) => join.room
    case LeaveCommand(leave) => leave.room
    case SignalCommand(signal) => signal.room
  }
}
