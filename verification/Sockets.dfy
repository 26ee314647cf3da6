/** Sockets and sessions, as values, for V2: who is connected as whom, and what each action of the authority means to
    browsers and callers. */
module Sockets {
  import opened Wrappers
  import opened Collections
  import opened Sfu
  import opened V2State
  import opened V2Steps

  datatype Session = Connected | RegisteredV2(room: RoomId, client: ClientId)

  datatype Frame =
    | RegisteredFrame(room: RoomId, epoch: nat, mode: RoomMode, isInitiator: Option<bool>)
    | RelayFrame(message: string)
    | PromoteFrame(room: RoomId, epoch: nat)
    | UpgradeFrame(room: RoomId, epoch: nat)
    | DowngradeFrame(room: RoomId, epoch: nat, offers: bool)
    | RoomFailedFrame(room: RoomId, reason: string)
    | ErrorFrame(error: string)

  datatype BrowserOutput =
    | Text(connection: ConnectionId, frame: Frame)
    | Close(connection: ConnectionId)
    | SfuOutput(output: Output)

  datatype Operation =
    | AdmitV2(room: RoomId, client: ClientId, token: string, now: Instant)
    | RemoveV2(room: RoomId, client: ClientId, token: string)
    | OccupancyV2(room: RoomId)

  datatype Answer =
    | AdmittedV2(admission: Admission)
    | RemovedV2
    | OccupancyOfV2(count: nat, mode: RoomMode)
    | Refused(error: string)

  datatype Response = Response(request: RequestId, answer: Answer)

  datatype SfuInput =
    | RegisterInput(connection: ConnectionId, instance: InstanceId, request: RequestId, capacity: Capacity)
    | ResultInput(connection: ConnectionId, instance: InstanceId, result: CommandResult, now: Instant)
    | EventInput(connection: ConnectionId, instance: InstanceId, event: Event)
    | DisconnectedInput(connection: ConnectionId, instance: InstanceId, now: Instant)

  type Key = (RoomId, ClientId)

  datatype Wires = Wires(sessions: map<ConnectionId, Session>, connections: map<Key, ConnectionId>,
                         outputs: seq<BrowserOutput>, responses: seq<Response>)

  // ---- the two connection maps ----

  /** The two connection maps agree: an entry leads to a session registered under its key. */
  ghost predicate Agree(sessions: map<ConnectionId, Session>, connections: map<Key, ConnectionId>) {
    forall k :: k in connections ==>
      connections[k] in sessions && sessions[connections[k]] == RegisteredV2(k.0, k.1)
  }

  /** So no socket stands for two members. */
  lemma AgreeInjective(sessions: map<ConnectionId, Session>, connections: map<Key, ConnectionId>, k: Key, l: Key)
    requires Agree(sessions, connections) && k in connections && l in connections && connections[k] == connections[l]
    ensures k == l
  {
  }

  /** A socket that stands for nobody can take over a key. */
  lemma NobodyElse(sessions: map<ConnectionId, Session>, connections: map<Key, ConnectionId>, connection: ConnectionId,
                   key: Key)
    requires Agree(sessions, connections) && (connection in sessions ==> sessions[connection] == Connected)
    ensures Agree(sessions[connection := RegisteredV2(key.0, key.1)], connections[key := connection])
  {
  }

  // ---- what to write ----

  /** A frame for each of the clients that has a socket. */
  ghost function Notices(connections: map<Key, ConnectionId>, room: RoomId, clients: seq<ClientId>, frame: Frame)
    : seq<BrowserOutput>
  {
    if clients == [] then [] else
    (if (room, clients[0]) in connections then [Text(connections[(room, clients[0])], frame)] else [])
    + Notices(connections, room, clients[1..], frame)
  }

  ghost function DowngradeNotices(connections: map<Key, ConnectionId>, room: RoomId, epoch: nat, clients: seq<ClientId>,
                                  initiator: ClientId): seq<BrowserOutput>
  {
    if clients == [] then [] else
    Notices(connections, room, [clients[0]], DowngradeFrame(room, epoch, clients[0] == initiator))
    + DowngradeNotices(connections, room, epoch, clients[1..], initiator)
  }

  ghost function PromotionNotices(connections: map<Key, ConnectionId>, promotions: seq<Promotion>): seq<BrowserOutput> {
    if promotions == [] then [] else
    Notices(connections, promotions[0].room, [promotions[0].client],
            PromoteFrame(promotions[0].room, promotions[0].signalEpoch))
    + PromotionNotices(connections, promotions[1..])
  }

  ghost function Relays(connection: ConnectionId, messages: seq<string>): seq<BrowserOutput> {
    seq(|messages|, i requires 0 <= i < |messages| => Text(connection, RelayFrame(messages[i])))
  }

  ghost function Says(w: Wires, more: seq<BrowserOutput>): Wires {
    w.(outputs := w.outputs + more)
  }

  ghost function Fails(w: Wires, connection: ConnectionId, error: string): Wires {
    Says(w, [Text(connection, ErrorFrame(error)), Close(connection)])
  }

  ghost function Answered(w: Wires, request: RequestId, answer: Answer): Wires {
    w.(responses := w.responses + [Response(request, answer)])
  }

  /** The socket of a member that is gone is forgotten and closed. */
  ghost function Closed(w: Wires, room: RoomId, client: ClientId): Wires {
    if (room, client) in w.connections then
      var connection := w.connections[(room, client)];
      Wires(w.sessions - {connection}, w.connections - {(room, client)}, w.outputs + [Close(connection)], w.responses)
    else w
  }

  lemma ClosedAgrees(w: Wires, room: RoomId, client: ClientId)
    requires Agree(w.sessions, w.connections)
    ensures Agree(Closed(w, room, client).sessions, Closed(w, room, client).connections)
  {
  }

  // ---- what actions mean ----

  function AdmissionAnswer(admission: Result<Admission, string>): Answer {
    match admission
    case Ok(value) => AdmittedV2(value)
    case Err(error) => Refused(error)
  }

  function RemovalAnswer(removal: Result<(), string>): Answer {
    match removal
    case Ok(_) => RemovedV2
    case Err(error) => Refused(error)
  }

  /** Acting on an action; members are told in some order. */
  ghost predicate Carries(w: Wires, action: Action, w': Wires) {
    match action
    case SfuOut(output) => w' == Says(w, [SfuOutput(output)])
    case AdmissionCompleted(ticket, admission) => w' == Answered(w, ticket, AdmissionAnswer(admission))
    case RemovalCompleted(ticket, room, client, removal) =>
      w' == Answered(if removal.Ok? then Closed(w, room, client) else w, ticket, RemovalAnswer(removal))
    case Upgraded(room, epoch, existing) => Tells(w, room, existing, UpgradeFrame(room, epoch), w')
    case Downgraded(room, epoch, initiator, clients) =>
      w' == Says(w, DowngradeNotices(w.connections, room, epoch, clients, initiator))
    case Deliver(delivery) =>
      w' == Says(w, Notices(w.connections, delivery.room, [delivery.client], RelayFrame(delivery.message)))
    case RoomFailed(room, members, reason) => Tells(w, room, members, RoomFailedFrame(room, reason), w')
  }

  ghost predicate Tells(w: Wires, room: RoomId, clients: set<ClientId>, frame: Frame, w': Wires) {
    exists order: seq<ClientId> :: Lists(order, clients) && w' == Says(w, Notices(w.connections, room, order, frame))
  }

  /** Acting on actions, one after another. */
  ghost predicate Drains(w: Wires, actions: seq<Action>, w': Wires)
    decreases |actions|
  {
    if actions == [] then w' == w
    else exists mid: Wires :: Carries(w, actions[0], mid) && Drains(mid, actions[1..], w')
  }

  lemma DrainsCons(w: Wires, action: Action, mid: Wires, rest: seq<Action>, w': Wires)
    requires Carries(w, action, mid) && Drains(mid, rest, w')
    ensures Drains(w, [action] + rest, w')
  {
    assert ([action] + rest)[1..] == rest;
  }

  /** The response that an action carries, if it completes a request. */
  ghost function AnswerTo(action: Action): seq<Response> {
    match action
    case AdmissionCompleted(ticket, admission) => [Response(ticket, AdmissionAnswer(admission))]
    case RemovalCompleted(ticket, _, _, removal) => [Response(ticket, RemovalAnswer(removal))]
    case _ => []
  }

  ghost function AnswersTo(actions: seq<Action>): seq<Response> {
    if actions == [] then [] else AnswerTo(actions[0]) + AnswersTo(actions[1..])
  }

  ghost function Requests(responses: seq<Response>): multiset<RequestId> {
    if responses == [] then multiset{} else multiset{responses[0].request} + Requests(responses[1..])
  }

  lemma {:induction false} RequestsSnoc(responses: seq<Response>, last: Response)
    ensures Requests(responses + [last]) == Requests(responses) + multiset{last.request}
  {
    if responses == [] {
      assert [] + [last] == [last] && [last][1..] == [];
    } else {
      assert (responses + [last])[1..] == responses[1..] + [last];
      RequestsSnoc(responses[1..], last);
    }
  }

  ghost predicate Departs(action: Action) {
    action.RemovalCompleted? && action.removal.Ok?
  }

  /** An action only ever closes the socket of the member whose removal it reports. */
  lemma CarriesKeeps(w: Wires, action: Action, w': Wires)
    requires Carries(w, action, w')
    ensures Agree(w.sessions, w.connections) ==> Agree(w'.sessions, w'.connections)
    ensures w'.connections == if Departs(action) then w.connections - {(action.room, action.client)} else w.connections
    ensures !Departs(action) ==> w'.sessions == w.sessions
    ensures w'.sessions.Keys <= w.sessions.Keys
    ensures w'.responses == w.responses + AnswerTo(action)
    ensures w.outputs <= w'.outputs
  {
    if Departs(action) && Agree(w.sessions, w.connections) { ClosedAgrees(w, action.room, action.client); }
  }

  /** Draining answers each completed request once, in order, and takes no socket from a member that stays. */
  lemma {:induction false} DrainsKeeps(w: Wires, actions: seq<Action>, w': Wires)
    requires Drains(w, actions, w')
    ensures w'.responses == w.responses + AnswersTo(actions)
    ensures Agree(w.sessions, w.connections) ==> Agree(w'.sessions, w'.connections)
    ensures w.outputs <= w'.outputs && w'.sessions.Keys <= w.sessions.Keys
    ensures forall k :: k in w.connections && (forall a :: a in actions && Departs(a) ==> k != (a.room, a.client)) ==>
              k in w'.connections && w'.connections[k] == w.connections[k]
    decreases |actions|
  {
    if actions != [] {
      var mid: Wires :| Carries(w, actions[0], mid) && Drains(mid, actions[1..], w');
      CarriesKeeps(w, actions[0], mid);
      DrainsKeeps(mid, actions[1..], w');
      hide Carries, Drains, Agree, AnswerTo, Departs;
      assert actions[0] in actions && forall a :: a in actions[1..] ==> a in actions;
    }
  }

  /** What is written for one member goes to its one socket, whose session is that member's, and nowhere else. */
  lemma WrittenOnce(w: Wires, room: RoomId, client: ClientId, frame: Frame)
    requires Agree(w.sessions, w.connections)
    ensures var notices := Notices(w.connections, room, [client], frame);
            if (room, client) in w.connections then
              var connection := w.connections[(room, client)];
              && notices == [Text(connection, frame)]
              && connection in w.sessions && w.sessions[connection] == RegisteredV2(room, client)
              && (forall k: Key :: k in w.connections && w.connections[k] == connection ==> k == (room, client))
            else notices == []
  {
    var clients := [client];
    assert clients[1..] == [];
    assert Notices(w.connections, room, clients[1..], frame) == [];
    if (room, client) in w.connections {
      forall k: Key | k in w.connections && w.connections[k] == w.connections[(room, client)]
        ensures k == (room, client)
      {
        AgreeInjective(w.sessions, w.connections, k, (room, client));
      }
    }
  }

  lemma AnswerCount(action: Action)
    ensures Requests(AnswerTo(action))
            == if action.AdmissionCompleted? then multiset{action.ticket}
               else if action.RemovalCompleted? then multiset{action.ticket} else multiset{}
  {
    var answer := AnswerTo(action);
    if answer != [] { assert answer[1..] == [] && Requests(answer[1..]) == multiset{}; }
  }

  // ---- replies ----

  ghost function AdmitReply(w: Wires, request: RequestId, admitted: Result<AdmissionResult, string>): Wires {
    match admitted
    case Err(error) => Answered(w, request, Refused(error))
    case Ok(AdmissionPending) => w
    case Ok(Complete(admission)) => Answered(w, request, AdmittedV2(admission))
  }

  ghost function RemoveReply(w: Wires, request: RequestId, room: RoomId, client: ClientId,
                             removed: Result<RemovalResult, string>): Wires
  {
    match removed
    case Err(error) => Answered(w, request, Refused(error))
    case Ok(RemovalPending) => w
    case Ok(Removed(promotion)) =>
      var closed := Closed(w, room, client);
      Answered(Says(closed, PromotionNotices(closed.connections, if promotion.Some? then [promotion.value] else [])),
               request, RemovedV2)
  }

  function OccupancyAnswer(rooms: map<RoomId, Room>, room: RoomId): Answer {
    if room in rooms then OccupancyOfV2(|rooms[room].members|, rooms[room].mode) else OccupancyOfV2(0, P2p)
  }

  /** A browser's socket has registered: it hears the state of the room, and then what was queued for it. */
  ghost function Entered(w: Wires, connection: ConnectionId, room: RoomId, client: ClientId, registration: Registration)
    : Wires
  {
    Wires(w.sessions[connection := RegisteredV2(room, client)], w.connections[(room, client) := connection],
          w.outputs
          + [Text(connection, RegisteredFrame(room, registration.signalEpoch, registration.mode, registration.isInitiator))]
          + Relays(connection, registration.queued),
          w.responses)
  }

  /** A frame that the authority routes to a peer is written to that peer's socket, if it has one. */
  ghost function SendReply(w: Wires, sent: SendResult): Wires {
    if sent.ToPeer? && sent.delivery.Some? then
      var delivery := sent.delivery.value;
      Says(w, Notices(w.connections, delivery.room, [delivery.client], RelayFrame(delivery.message)))
    else w
  }

  /** Whether a socket is the one that stands for the member its session names. */
  ghost predicate Stands(w: Wires, connection: ConnectionId) {
    && connection in w.sessions && w.sessions[connection].RegisteredV2?
    && (w.sessions[connection].room, w.sessions[connection].client) in w.connections
    && w.connections[(w.sessions[connection].room, w.sessions[connection].client)] == connection
  }

  /** Under agreement that is the same as some member's entry leading to it. */
  lemma StandsForOne(w: Wires, connection: ConnectionId)
    requires Agree(w.sessions, w.connections)
    ensures Stands(w, connection) <==> exists k: Key :: k in w.connections && w.connections[k] == connection
  {
    if k: Key :| k in w.connections && w.connections[k] == connection {
      assert w.sessions[connection] == RegisteredV2(k.0, k.1);
    }
    if Stands(w, connection) {
      var k: Key := (w.sessions[connection].room, w.sessions[connection].client);
      assert k in w.connections && w.connections[k] == connection;
    }
  }

  ghost function KeyOf(w: Wires, connection: ConnectionId): Key {
    if connection in w.sessions && w.sessions[connection].RegisteredV2? then
      (w.sessions[connection].room, w.sessions[connection].client)
    else (Uuid([]), 0)
  }

  /** Once a socket is forgotten with its entry, the maps still agree. */
  lemma ForgottenAgrees(w: Wires, connection: ConnectionId)
    requires Agree(w.sessions, w.connections) && connection in w.sessions
    ensures var key := KeyOf(w, connection);
            if Stands(w, connection) then Agree(w.sessions - {connection}, w.connections - {key})
            else Agree(w.sessions - {connection}, w.connections)
  {
    if !Stands(w, connection) { StandsForOne(w, connection); }
  }

  lemma FailsSame(w: Wires, connection: ConnectionId, error: string)
    ensures var w' := Fails(w, connection, error);
            w'.sessions == w.sessions && w'.connections == w.connections && w'.responses == w.responses
  {
  }

  lemma EnteredSame(w: Wires, connection: ConnectionId, room: RoomId, client: ClientId, registration: Registration)
    ensures var w' := Entered(w, connection, room, client, registration);
            && w'.sessions == w.sessions[connection := RegisteredV2(room, client)]
            && w'.connections == w.connections[(room, client) := connection] && w'.responses == w.responses
  {
  }
}
