/** The layer between sockets and the authority, as values: its state, its inputs, and what it makes of each. */
module Layers {
  import opened Wrappers
  import opened Sfu
  import opened V2State
  import opened V2Steps
  import opened RoomToken
  import opened Sockets

  datatype Layer = Layer(table: Table, wires: Wires)

  /** Inputs, with the iteration orders that the authority meets while it handles them. */
  datatype Input =
    | Opening(connection: ConnectionId)
    | Registering(connection: ConnectionId, roomid: string, client: Option<ClientId>, token: string, order: seq<ClientId>)
    | Sending(connection: ConnectionId, message: string, epoch: Option<nat>, order: seq<ClientId>)
    | Closing(connection: ConnectionId, now: Instant)
    | Requesting(request: RequestId, operation: Operation)
    | Reporting(input: SfuInput, rooms: seq<RoomId>, commands: seq<RequestId>)
    | Ticking(now: Instant, schedule: Schedule)
    | TakingOutput
    | TakingResponse

  /** Why a registration is refused before the authority sees it. */
  ghost function RegisterRefused(w: Wires, connection: ConnectionId, roomid: string, client: Option<ClientId>, token: string)
    : Option<string>
  {
    if connection in w.sessions && w.sessions[connection].RegisteredV2? then Some("Duplicated register request")
    else if ParseRoomToken(roomid).None? then Some("INVALID_ROOM_ID")
    else if client.None? then Some("INVALID_CLIENT_ID")
    else if token == "" then Some("UNAUTHORIZED")
    else None
  }

  /** Why a frame is refused before the authority sees it. */
  ghost function SendRefused(w: Wires, connection: ConnectionId, message: string): Option<string> {
    if connection !in w.sessions then Some("Client not registered")
    else if message == "" then Some("Invalid send request: missing 'msg'")
    else if w.sessions[connection] == Connected then Some("Client not registered")
    else None
  }

  /** What the authority makes of what a worker says. */
  ghost function SfuStep(t: Table, input: SfuInput, rooms: seq<RoomId>, commands: seq<RequestId>)
    : (done: (Table, Result<(), string>))
  {
    match input
    case RegisterInput(connection, i, id, capacity) =>
      (RegisterWorker(t, connection, i, id, capacity, rooms, commands), Ok(()))
    case ResultInput(connection, i, result, now) => HandleResult(t, connection, i, result, now)
    case EventInput(connection, i, event) => HandleEvent(t, connection, i, event)
    case DisconnectedInput(connection, i, now) => (LoseWorker(t, connection, i, now), Ok(()))
  }

  /** The authority has made a step to `t`, and the layer has acted on what it queued, from `w` on. */
  ghost predicate Settled(t: Table, w: Wires, b: Layer) {
    b.table == t.(actions := []) && Drains(w, t.actions, b.wires)
  }

  /** A browser registers, naming its room by its token. On success its socket stands for the member, hears the
      state of the room first, and then what was queued for it, in order. */
  ghost predicate HandlesRegister(a: Layer, connection: ConnectionId, roomid: string, client: Option<ClientId>,
                                  token: string, order: seq<ClientId>, b: Layer)
  {
    var refused := RegisterRefused(a.wires, connection, roomid, client, token);
    if refused.Some? then b == a.(wires := Fails(a.wires, connection, refused.value)) else
    var r, c := ParseRoomToken(roomid).value, client.value;
    var done := Register(a.table, r, c, token, order);
    b == Layer(done.0, if done.1.Err? then Fails(a.wires, connection, done.1.error)
                       else Entered(a.wires, connection, r, c, done.1.value))
  }

  /** A registered browser sends a frame; the authority routes it to a peer, queues it, drops it, or tells the worker. */
  ghost predicate HandlesSend(a: Layer, connection: ConnectionId, message: string, epoch: Option<nat>,
                              order: seq<ClientId>, b: Layer)
  {
    var refused := SendRefused(a.wires, connection, message);
    if refused.Some? then b == a.(wires := Fails(a.wires, connection, refused.value)) else
    if epoch.None? then b == a else
    var session := a.wires.sessions[connection];
    var done := Send(a.table, session.room, session.client, epoch.value, message, order);
    if done.1.Err? then b == a else Settled(done.0, SendReply(a.wires, done.1.value), b)
  }

  /** What the sender's caller learns. */
  ghost function SendOutcome(a: Layer, connection: ConnectionId, message: string, epoch: Option<nat>, order: seq<ClientId>)
    : Result<(), string>
  {
    if SendRefused(a.wires, connection, message).Some? || epoch.None? then Ok(()) else
    var session := a.wires.sessions[connection];
    match Send(a.table, session.room, session.client, epoch.value, message, order).1
    case Err(error) => Err(error)
    case Ok(_) => Ok(())
  }

  /** A socket is gone. Only if it is the one that stands for its member does the member go offline. */
  ghost predicate HandlesClose(a: Layer, connection: ConnectionId, now: Instant, b: Layer) {
    var w := a.wires;
    if Stands(w, connection) then
      var key := KeyOf(w, connection);
      Settled(Deregister(a.table, now, key.0, key.1),
              w.(sessions := w.sessions - {connection}, connections := w.connections - {key}), b)
    else b == a.(wires := w.(sessions := w.sessions - {connection}))
  }

  /** One request: it is answered now, unless a worker has to be waited for. */
  ghost predicate HandlesRequest(a: Layer, request: RequestId, operation: Operation, b: Layer) {
    match operation
    case AdmitV2(room, client, token, now) =>
      var done := Admit(a.table, request, now, room, client, token);
      Settled(done.0, AdmitReply(a.wires, request, done.1), b)
    case RemoveV2(room, client, token) =>
      var done := Remove(a.table, request, room, client, token);
      Settled(done.0, RemoveReply(a.wires, request, room, client, done.1), b)
    case OccupancyV2(room) =>
      Settled(a.table, Answered(a.wires, request, OccupancyAnswer(a.table.rooms, room)), b)
  }

  /** Something a worker says. An error leaves everything for the next input to carry on with. */
  ghost predicate HandlesReport(a: Layer, input: SfuInput, rooms: seq<RoomId>, commands: seq<RequestId>, b: Layer) {
    var done := SfuStep(a.table, input, rooms, commands);
    if done.1.Ok? then Settled(done.0, a.wires, b) else b == a.(table := done.0)
  }

  ghost predicate HandlesTick(a: Layer, now: Instant, s: Schedule, b: Layer) {
    var done := HandleTimeout(a.table, now, s);
    Settled(done.0, Says(a.wires, PromotionNotices(a.wires.connections, done.1)), b)
  }

  ghost function Rest<T>(s: seq<T>): seq<T> {
    if s == [] then [] else s[1..]
  }

  /** What the authority is asked to do, if anything. */
  ghost function StepOf(a: Layer, input: Input): Option<Step> {
    match input
    case Opening(_) => None
    case Registering(x, roomid, client, token, order) =>
      if RegisterRefused(a.wires, x, roomid, client, token).Some? then None
      else Some(RegisterStep(ParseRoomToken(roomid).value, client.value, token, order))
    case Sending(x, message, epoch, order) =>
      if SendRefused(a.wires, x, message).Some? || epoch.None? then None
      else Some(SendStep(a.wires.sessions[x].room, a.wires.sessions[x].client, epoch.value, message, order))
    case Closing(x, now) =>
      if Stands(a.wires, x) then Some(DeregisterStep(now, KeyOf(a.wires, x).0, KeyOf(a.wires, x).1)) else None
    case Requesting(request, AdmitV2(room, client, token, now)) => Some(AdmitStep(request, now, room, client, token))
    case Requesting(request, RemoveV2(room, client, token)) => Some(RemoveStep(request, room, client, token))
    case Requesting(_, OccupancyV2(_)) => None
    case Reporting(RegisterInput(x, i, id, capacity), rooms, commands) => Some(WorkerStep(x, i, id, capacity, rooms, commands))
    case Reporting(ResultInput(x, i, result, now), _, _) => Some(ResultStep(x, i, result, now))
    case Reporting(EventInput(x, i, event), _, _) => Some(EventStep(x, i, event))
    case Reporting(DisconnectedInput(x, i, now), _, _) => Some(LostStep(x, i, now))
    case Ticking(now, s) => Some(TimeoutStep(now, s))
    case TakingOutput => None
    case TakingResponse => None
  }

  /** The orders are ones that could be met. */
  ghost predicate InOrder(a: Layer, input: Input) {
    StepOf(a, input).Some? ==> ProperOrders(a.table, StepOf(a, input).value)
  }

  ghost predicate Handles(a: Layer, input: Input, b: Layer) {
    InOrder(a, input) &&
    match input
    case Opening(x) => x !in a.wires.sessions && b == a.(wires := a.wires.(sessions := a.wires.sessions[x := Connected]))
    case Registering(x, roomid, client, token, order) => HandlesRegister(a, x, roomid, client, token, order, b)
    case Sending(x, message, epoch, order) => HandlesSend(a, x, message, epoch, order, b)
    case Closing(x, now) => HandlesClose(a, x, now, b)
    case Requesting(request, operation) => HandlesRequest(a, request, operation, b)
    case Reporting(said, rooms, commands) => HandlesReport(a, said, rooms, commands, b)
    case Ticking(now, s) => HandlesTick(a, now, s, b)
    case TakingOutput => b == a.(wires := a.wires.(outputs := Rest(a.wires.outputs)))
    case TakingResponse => b == a.(wires := a.wires.(responses := Rest(a.wires.responses)))
  }
}
