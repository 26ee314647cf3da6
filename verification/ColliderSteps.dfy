/** Steps of the authority as the layer between it and the sockets sees them: who stays reachable, and which requests
    are still to be answered. */
module ColliderSteps {
  import opened Wrappers
  import opened Sfu
  import opened V2State
  import opened V2Steps
  import opened V2Moves
  import opened V2RoomSteps
  import opened V2Slots
  import opened V2SlotTimers
  import opened V2Tickets
  import opened V2Presence
  import opened V2Runs
  import opened Sockets

  /** Every connected member has an entry. */
  ghost predicate Reachables(t: Table, connections: map<Key, ConnectionId>) {
    forall r: RoomId, c: ClientId :: Online(RoomAt(t, r), c) ==> (r, c) in connections
  }

  /** Requests asked are requests answered and requests still pending. */
  ghost predicate Balanced(t: Table, asked: multiset<RequestId>, answered: multiset<RequestId>) {
    forall x: Ticket :: asked[x] == answered[x] + Outstanding(t, x)
  }

  ghost predicate Accounted(t: Table, acks: Acks, asked: multiset<RequestId>, answered: multiset<RequestId>) {
    Core(t, acks, true) && Balanced(t, asked, answered)
  }

  ghost predicate IsTame(t: Table, step: Step) {
    !ReachesFailRoom(t, step) && !LeavesJoiner(t, step)
  }

  /** A tame step keeps the balance, up to what it opens and what it hands over. */
  lemma StepBalance(t: Table, step: Step, acks: Acks, asked: multiset<RequestId>, answered: multiset<RequestId>)
    requires Accounted(t, acks, asked, answered) && ProperOrders(t, step) && IsTame(t, step)
    ensures Core(Apply(t, step), AcksAfter(t, acks, step), true)
    ensures forall x: Ticket :: asked[x] + Opened(t, step, x)
                                == answered[x] + Outstanding(Apply(t, step), x) + Popped(t, step, x)
  {
    hide Core, Apply, ProperOrders, ReachesFailRoom, LeavesJoiner, Outstanding, Opened, Popped;
    StepCore(t, step, acks, true);
    forall x: Ticket ensures asked[x] + Opened(t, step, x)
                             == answered[x] + Outstanding(Apply(t, step), x) + Popped(t, step, x)
    {
      StepTickets(t, step, x, acks);
    }
  }

  /** A step other than a registration leaves every connected member with its entry. */
  lemma StepReachables(t: Table, step: Step, connections: map<Key, ConnectionId>)
    requires Reachables(t, connections) && Base(t) && ProperOrders(t, step) && !step.RegisterStep?
    ensures Reachables(Apply(t, step), connections)
  {
    hide Base, Apply, ProperOrders, Online, RoomsOk;
    BaseRooms(t);
    forall r: RoomId, c: ClientId | Online(RoomAt(Apply(t, step), r), c) ensures (r, c) in connections {
      StepOnline(t, step, r, c);
    }
  }

  lemma BaseRooms(t: Table)
    requires Base(t)
    ensures RoomsOk(t, false)
  {
  }

  /** What a step asks and hands over, when it does neither. */
  lemma QuietStep(t: Table, step: Step, x: Ticket)
    requires !step.AdmitStep? && !step.RemoveStep? && !step.PollStep?
    ensures Opened(t, step, x) == 0 && Popped(t, step, x) == 0
  {
  }

  // ---- polling an action ----

  lemma PollSplits(t: Table)
    requires t.actions != []
    ensures t.actions == [t.actions[0]] + PollAction(t).actions
  {
  }

  lemma ApplyPoll(t: Table)
    ensures Apply(t, PollStep) == PollAction(t) && ProperOrders(t, PollStep) && IsTame(t, PollStep)
  {
  }

  lemma PollKeeps(t: Table, action: Action, before: map<Key, ConnectionId>, after: map<Key, ConnectionId>)
    requires t.actions != [] && action == t.actions[0] && Reachables(t, before) && RemovalsGone(t)
    requires after == if action.RemovalCompleted? && action.removal.Ok? then before - {(action.room, action.client)} else before
    ensures Reachables(PollAction(t), after) && RemovalsGone(PollAction(t))
    ensures forall k :: k in after ==> k in before && after[k] == before[k]
  {
    PollSays(t);
    assert action in t.actions;
    assert forall r: RoomId :: RoomAt(PollAction(t), r) == RoomAt(t, r);
  }

  lemma PollBalance(t: Table, t': Table, asked: multiset<RequestId>, before: multiset<RequestId>,
                    after: multiset<RequestId>, action: Action)
    requires t.actions != [] && action == t.actions[0] && after == before + Requests(AnswerTo(action))
    requires forall x: Ticket :: asked[x] + Opened(t, PollStep, x) == before[x] + Outstanding(t', x) + Popped(t, PollStep, x)
    ensures Balanced(t', asked, after)
  {
    hide Outstanding;
    forall x: Ticket ensures asked[x] == after[x] + Outstanding(t', x) {
      AnswerCounts(action, x);
    }
  }

  lemma AnswerCounts(action: Action, x: Ticket)
    ensures Requests(AnswerTo(action))[x] == Completes(action, x)
  {
    AnswerCount(action);
  }

  lemma DrainedSays(t: Table)
    requires t.actions == []
    ensures NoRemovals(t.actions) && RemovalsGone(t)
  {
  }

  // ---- steps of the authority, as the layer above sees them ----

  lemma SameBalance(t: Table, step: Step, t': Table, asked: multiset<RequestId>, answered: multiset<RequestId>)
    requires !step.AdmitStep? && !step.RemoveStep? && !step.PollStep?
    requires forall x: Ticket :: asked[x] + Opened(t, step, x) == answered[x] + Outstanding(t', x) + Popped(t, step, x)
    ensures Balanced(t', asked, answered)
  {
    hide Outstanding, Opened, Popped;
    forall x: Ticket ensures asked[x] == answered[x] + Outstanding(t', x) {
      QuietStep(t, step, x);
    }
  }

  lemma ApplyRegister(t: Table, r: RoomId, c: ClientId, token: string, order: seq<ClientId>)
    requires ListsMembers(t, r, order)
    ensures Apply(t, RegisterStep(r, c, token, order)) == Register(t, r, c, token, order).0
    ensures ProperOrders(t, RegisterStep(r, c, token, order))
  {
    hide Register;
  }

  lemma ApplySend(t: Table, r: RoomId, c: ClientId, epoch: nat, message: string, order: seq<ClientId>)
    requires ListsMembers(t, r, order)
    ensures Apply(t, SendStep(r, c, epoch, message, order)) == Send(t, r, c, epoch, message, order).0
    ensures ProperOrders(t, SendStep(r, c, epoch, message, order))
  {
    hide Send;
  }

  lemma ApplyDeregister(t: Table, now: Instant, r: RoomId, c: ClientId)
    ensures Apply(t, DeregisterStep(now, r, c)) == Deregister(t, now, r, c)
    ensures ProperOrders(t, DeregisterStep(now, r, c))
  {
    hide Deregister;
  }

  /** A registration brings at most its own member online, and says nothing. */
  lemma RegisterKeeps(t: Table, r: RoomId, c: ClientId, token: string, order: seq<ClientId>,
                      connections: map<Key, ConnectionId>, connection: ConnectionId)
    requires Reachables(t, connections) && NoRemovals(t.actions)
    ensures var done := Register(t, r, c, token, order);
            && done.0.actions == t.actions && RemovalsGone(done.0)
            && (done.1.Err? ==> Reachables(done.0, connections))
            && Reachables(done.0, connections[(r, c) := connection])
  {
    var done := Register(t, r, c, token, order);
    assert done.0.actions == t.actions by { hide RegisteredMembers, QueuedFor; }
    NoneGone(done.0);
    hide Register, Online;
    forall s: RoomId, d: ClientId | Online(RoomAt(done.0, s), d)
      ensures (s, d) in connections || (s == r && d == c && done.1.Ok?)
    {
      RegisterOnline(t, r, c, token, order, s, d);
    }
  }

  /** A frame is routed to a connected peer, which has a socket. */
  lemma SendRoutes(t: Table, r: RoomId, c: ClientId, epoch: nat, message: string, order: seq<ClientId>,
                   connections: map<Key, ConnectionId>)
    requires Reachables(t, connections)
    requires var sent := Send(t, r, c, epoch, message, order).1; sent.Ok? && sent.value.ToPeer? && sent.value.delivery.Some?
    ensures var delivery := Send(t, r, c, epoch, message, order).1.value.delivery.value;
            (delivery.room, delivery.client) in connections && delivery.message == message
    ensures Send(t, r, c, epoch, message, order).0 == t
  {
    var delivery := Send(t, r, c, epoch, message, order).1.value.delivery.value;
    assert Online(RoomAt(t, delivery.room), delivery.client);
  }

  lemma SendFails(t: Table, r: RoomId, c: ClientId, epoch: nat, message: string, order: seq<ClientId>)
    requires Send(t, r, c, epoch, message, order).1.Err?
    ensures Send(t, r, c, epoch, message, order).0 == t
  {
  }

  /** A member that is deregistered is offline, so its entry can go. */
  lemma WentOffline(t: Table, now: Instant, r: RoomId, c: ClientId, connections: map<Key, ConnectionId>)
    requires Reachables(Deregister(t, now, r, c), connections)
    ensures Reachables(Deregister(t, now, r, c), connections - {(r, c)})
  {
    hide Deregister, Online;
    DisconnectedIsOffline(t, now, r, c);
  }

  lemma ApplyAdmit(t: Table, ticket: Ticket, now: Instant, r: RoomId, c: ClientId, token: string)
    ensures Apply(t, AdmitStep(ticket, now, r, c, token)) == Admit(t, ticket, now, r, c, token).0
    ensures ProperOrders(t, AdmitStep(ticket, now, r, c, token))
  {
    hide Admit;
  }

  lemma ApplyRemove(t: Table, ticket: Ticket, r: RoomId, c: ClientId, token: string)
    ensures Apply(t, RemoveStep(ticket, r, c, token)) == Remove(t, ticket, r, c, token).0
    ensures ProperOrders(t, RemoveStep(ticket, r, c, token))
  {
    hide Remove;
  }

  lemma ApplyWorker(t: Table, connection: ConnectionId, i: InstanceId, id: RequestId, capacity: Capacity,
                    rooms: seq<RoomId>, commands: seq<RequestId>)
    ensures Apply(t, WorkerStep(connection, i, id, capacity, rooms, commands))
            == RegisterWorker(t, connection, i, id, capacity, rooms, commands)
  {
    hide RegisterWorker;
  }

  lemma ApplyResult2(t: Table, connection: ConnectionId, i: InstanceId, result: CommandResult, now: Instant)
    ensures Apply(t, ResultStep(connection, i, result, now)) == HandleResult(t, connection, i, result, now).0
    ensures ProperOrders(t, ResultStep(connection, i, result, now))
  {
    hide HandleResult;
  }

  lemma ApplyEvent(t: Table, connection: ConnectionId, i: InstanceId, event: Event)
    ensures Apply(t, EventStep(connection, i, event)) == HandleEvent(t, connection, i, event).0
    ensures ProperOrders(t, EventStep(connection, i, event))
  {
    hide HandleEvent;
  }

  lemma ApplyLost(t: Table, connection: ConnectionId, i: InstanceId, now: Instant)
    ensures Apply(t, LostStep(connection, i, now)) == LoseWorker(t, connection, i, now)
    ensures ProperOrders(t, LostStep(connection, i, now))
  {
    hide LoseWorker;
  }

  lemma ApplyTimeout(t: Table, now: Instant, s: Schedule)
    requires TimeoutOrders(t, now, s)
    ensures Apply(t, TimeoutStep(now, s)) == HandleTimeout(t, now, s).0 && ProperOrders(t, TimeoutStep(now, s))
  {
    hide HandleTimeout, TimeoutOrders;
  }

  lemma OpenedByAdmit(t: Table, request: RequestId, now: Instant, r: RoomId, c: ClientId, token: string)
    ensures forall x: Ticket :: Opened(t, AdmitStep(request, now, r, c, token), x)
              == One(request == x && Admit(t, request, now, r, c, token).1 == Ok(AdmissionPending))
  {
    hide Admit;
  }

  lemma OpenedByRemove(t: Table, request: RequestId, r: RoomId, c: ClientId, token: string)
    ensures forall x: Ticket :: Opened(t, RemoveStep(request, r, c, token), x)
              == One(request == x && Remove(t, request, r, c, token).1 == Ok(RemovalPending))
  {
    hide Remove;
  }

  lemma NonePopped(t: Table, step: Step)
    requires !step.PollStep?
    ensures forall x: Ticket :: Popped(t, step, x) == 0
  {
  }

  /** A member that is gone needs no entry. */
  lemma GoneEntry(t: Table, r: RoomId, c: ClientId, connections: map<Key, ConnectionId>)
    requires Reachables(t, connections) && !Present(RoomAt(t, r), c)
    ensures Reachables(t, connections - {(r, c)})
  {
  }

  /** Under E1 and E2 a result that is refused has changed nothing. */
  lemma TameResult(t: Table, acks: Acks, connection: ConnectionId, i: InstanceId, result: CommandResult, now: Instant)
    requires Core(t, acks, true) && HandleResult(t, connection, i, result, now).1.Err?
    ensures HandleResult(t, connection, i, result, now).0 == t
  {
    hide Core, HandleResult;
    if i in t.workers && t.workers[i].connection == Some(connection) {
      ResultSucceeds(t, connection, i, result, now, acks);
    } else {
      RefusedResult(t, connection, i, result, now);
    }
  }

  lemma RefusedResult(t: Table, connection: ConnectionId, i: InstanceId, result: CommandResult, now: Instant)
    requires !(i in t.workers && t.workers[i].connection == Some(connection))
    ensures HandleResult(t, connection, i, result, now).0 == t
  {
  }

  /** An event that ends in an error says nothing. */
  lemma EventErrors(t: Table, connection: ConnectionId, i: InstanceId, event: Event)
    requires HandleEvent(t, connection, i, event).1.Err?
    ensures HandleEvent(t, connection, i, event).0.actions == t.actions
  {
    hide Remember;
  }
}
