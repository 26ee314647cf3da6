/** The layer between sockets and the authority, for V2: who is connected as whom, where a routed
    message goes, and the answer to each request. */
module Colliders {
  import opened Wrappers
  import opened Collections
  import opened Sfu
  import opened V2State
  import opened V2Steps
  import opened V2Moves
  import opened V2Slots
  import opened V2SlotTimers
  import opened V2Tickets
  import opened V2Presence
  import opened V2Runs
  import opened V2Loops
  import opened V2Table
  import opened RoomToken
  import opened Sockets
  import opened Layers
  import opened ColliderSteps

  class Collider {
    const table: RoomTable
    var sessions: map<ConnectionId, Session>
    var connections: map<Key, ConnectionId>
    var outputs: seq<BrowserOutput>
    var responses: seq<Response>
    /** The requests ever asked and ever answered; the answers already taken from `responses`. */
    ghost var asked: multiset<RequestId>
    ghost var answered: multiset<RequestId>
    ghost var taken: seq<Response>
    /** Joins acknowledged so far, and whether every step so far met E1 and E2. */
    ghost var acks: Acks
    ghost var tame: bool

    ghost function W(): Wires
      reads this
    {
      Wires(sessions, connections, outputs, responses)
    }

    ghost function L(): Layer
      reads this, table
    {
      Layer(table.State(), W())
    }

    /** An answer counted is a response written. */
    ghost predicate Counted()
      reads this
    {
      answered == Requests(taken + responses)
    }

    /** The connection maps agree, and every connected member has its entry. */
    ghost predicate Wired()
      reads this, table
    {
      Counted() && table.Valid() && Agree(sessions, connections) && Reachables(table.State(), connections)
    }

    /** Between the authority's step and the end of the drain. */
    ghost predicate Draining()
      reads this, table
    {
      && Wired()
      && RemovalsGone(table.State())
      && (tame ==> Accounted(table.State(), acks, asked, answered))
    }

    ghost predicate Valid()
      reads this, table
    {
      && Draining()
      && NoRemovals(table.actions)
      && (tame ==> table.actions == [])
    }

    constructor (grace: nat, dwell: nat)
      ensures Valid() && fresh(table) && tame && table.State() == EmptyTable(grace, dwell)
      ensures W() == Wires(map[], map[], [], [])
      ensures asked == multiset{} && taken == []
    {
      table := new RoomTable(grace, dwell);
      sessions, connections, outputs, responses := map[], map[], [], [];
      asked, answered, acks, tame, taken := multiset{}, multiset{}, {}, true, [];
      new;
      EmptyCore(grace, dwell, true);
      forall x: Ticket ensures asked[x] == answered[x] + Outstanding(table.State(), x) {
        NothingOutstanding(grace, dwell, x);
      }
      hide Core, Outstanding, Base;
    }

    /** Take note of a step that the authority has made. */
    ghost method Note(before: Table, step: Step)
      requires Base(before) && ProperOrders(before, step) && table.State() == Apply(before, step)
      requires tame ==> Accounted(before, acks, asked, answered)
      modifies this`acks, this`tame
      ensures tame == (old(tame) && IsTame(before, step)) && acks == AcksAfter(before, old(acks), step)
      ensures tame ==> Core(table.State(), acks, true)
      ensures tame ==> forall x: Ticket :: asked[x] + Opened(before, step, x)
                                           == answered[x] + Outstanding(table.State(), x) + Popped(before, step, x)
    {
      hide Requests, Base, Apply, Core, Opened, Popped, Outstanding, ProperOrders, AcksAfter;
      if tame && IsTame(before, step) {
        StepBalance(before, step, acks, asked, answered);
      }
      tame := tame && IsTame(before, step);
      acks := AcksAfter(before, acks, step);
    }

    /** Take note of a step that neither asks anything, nor answers, nor connects anybody. */
    ghost method Took(before: Table, step: Step)
      requires Base(before) && ProperOrders(before, step) && table.State() == Apply(before, step) && table.Valid()
      requires Counted() && Agree(sessions, connections) && Reachables(before, connections)
      requires RemovalsGone(table.State())
      requires !step.RegisterStep? && !step.AdmitStep? && !step.RemoveStep? && !step.PollStep?
      requires tame ==> Accounted(before, acks, asked, answered)
      modifies this`acks, this`tame
      ensures Draining() && tame == (old(tame) && IsTame(before, step)) && acks == AcksAfter(before, old(acks), step)
    {
      hide Requests, Base, Apply, Core, Opened, Popped, Outstanding, ProperOrders, AcksAfter, RemovalsGone, Reachables, Agree;
      Note(before, step);
      if tame { SameBalance(before, step, table.State(), asked, answered); }
      StepReachables(before, step, connections);
    }

    // ---- writing to sockets ----

    method Connect(connection: ConnectionId)
      requires Valid() && connection !in sessions
      modifies this`sessions
      ensures Valid() && Handles(old(L()), Opening(connection), L())
    {
      hide Requests, Base, Core, Outstanding, RemovalsGone, Reachables, Balanced, HandlesRegister, HandlesSend,
           HandlesClose, HandlesRequest, HandlesReport, HandlesTick, RegisterRefused, SendRefused, Stands, KeyOf,
           ParseRoomToken;
      sessions := sessions[connection := Connected];
    }

    method FailConnection(connection: ConnectionId, error: string)
      modifies this`outputs
      ensures W() == Fails(old(W()), connection, error)
    {
      outputs := outputs + [Text(connection, ErrorFrame(error)), Close(connection)];
    }

    /** Forget the socket of a member that is gone, and close it. */
    method CloseClientConnection(room: RoomId, client: ClientId)
      modifies this`sessions, this`connections, this`outputs
      ensures W() == Closed(old(W()), room, client)
    {
      if (room, client) in connections {
        var connection := connections[(room, client)];
        connections := connections - {(room, client)};
        sessions := sessions - {connection};
        outputs := outputs + [Close(connection)];
      }
    }

    method Respond(request: RequestId, answer: Answer)
      requires Counted()
      modifies this`responses, this`answered
      ensures Counted() && W() == Answered(old(W()), request, answer)
      ensures answered == old(answered) + multiset{request}
    {
      hide Requests;
      assert taken + responses + [Response(request, answer)] == taken + (responses + [Response(request, answer)]);
      RequestsSnoc(taken + responses, Response(request, answer));
      responses := responses + [Response(request, answer)];
      answered := answered + multiset{request};
    }

    /** A frame for each of the listed members that is connected. */
    method Notify(room: RoomId, clients: seq<ClientId>, frame: Frame)
      modifies this`outputs
      ensures W() == Says(old(W()), Notices(connections, room, clients, frame))
    {
      var k := 0;
      while k < |clients|
        invariant 0 <= k <= |clients|
        invariant outputs + Notices(connections, room, clients[k..], frame)
                  == old(outputs) + Notices(connections, room, clients, frame)
      {
        assert clients[k..][1..] == clients[k + 1..];
        if (room, clients[k]) in connections {
          outputs := outputs + [Text(connections[(room, clients[k])], frame)];
        }
        k := k + 1;
      }
      assert clients[k..] == [];
    }

    method NotifyAll(room: RoomId, clients: set<ClientId>, frame: Frame)
      modifies this`outputs
      ensures Tells(old(W()), room, clients, frame, W())
    {
      var order := Collect(clients);
      Notify(room, order, frame);
    }

    method NotifyDowngrade(room: RoomId, epoch: nat, clients: seq<ClientId>, initiator: ClientId)
      modifies this`outputs
      ensures W() == Says(old(W()), DowngradeNotices(connections, room, epoch, clients, initiator))
    {
      hide Notices;
      var k := 0;
      while k < |clients|
        invariant 0 <= k <= |clients|
        invariant outputs + DowngradeNotices(connections, room, epoch, clients[k..], initiator)
                  == old(outputs) + DowngradeNotices(connections, room, epoch, clients, initiator)
      {
        assert clients[k..][1..] == clients[k + 1..];
        Notify(room, [clients[k]], DowngradeFrame(room, epoch, clients[k] == initiator));
        k := k + 1;
      }
      assert clients[k..] == [];
    }

    /** Members left behind alone learn that they are the initiator now. */
    method PushPromotions(promotions: seq<Promotion>)
      modifies this`outputs
      ensures W() == Says(old(W()), PromotionNotices(connections, promotions))
    {
      hide Notices;
      var k := 0;
      while k < |promotions|
        invariant 0 <= k <= |promotions|
        invariant outputs + PromotionNotices(connections, promotions[k..])
                  == old(outputs) + PromotionNotices(connections, promotions)
      {
        assert promotions[k..][1..] == promotions[k + 1..];
        Notify(promotions[k].room, [promotions[k].client], PromoteFrame(promotions[k].room, promotions[k].signalEpoch));
        k := k + 1;
      }
      assert promotions[k..] == [];
    }

    method Relay(connection: ConnectionId, messages: seq<string>)
      modifies this`outputs
      ensures W() == Says(old(W()), Relays(connection, messages))
    {
      var k := 0;
      while k < |messages|
        invariant 0 <= k <= |messages| && outputs == old(outputs) + Relays(connection, messages[..k])
      {
        assert Relays(connection, messages[..k + 1])
            == Relays(connection, messages[..k]) + [Text(connection, RelayFrame(messages[k]))];
        outputs := outputs + [Text(connection, RelayFrame(messages[k]))];
        k := k + 1;
      }
      assert messages[..k] == messages;
    }

    // ---- draining the authority's actions ----

    /** Act on one action of the authority. */
    method Carry(action: Action)
      requires Counted()
      modifies this`outputs, this`sessions, this`connections, this`responses, this`answered
      ensures Counted() && Carries(old(W()), action, W()) && answered == old(answered) + Requests(AnswerTo(action))
    {
      hide AnswerTo, Requests, Notices, DowngradeNotices, Closed, Tells;
      AnswerCount(action);
      match action {
        case SfuOut(output) => outputs := outputs + [SfuOutput(output)];
        case AdmissionCompleted(ticket, admission) => Respond(ticket, AdmissionAnswer(admission));
        case RemovalCompleted(ticket, room, client, removal) =>
          if removal.Ok? { CloseClientConnection(room, client); }
          Respond(ticket, RemovalAnswer(removal));
        case Upgraded(room, epoch, existing) => NotifyAll(room, existing, UpgradeFrame(room, epoch));
        case Downgraded(room, epoch, initiator, clients) => NotifyDowngrade(room, epoch, clients, initiator);
        case Deliver(delivery) => Notify(delivery.room, [delivery.client], RelayFrame(delivery.message));
        case RoomFailed(room, members, reason) => NotifyAll(room, members, RoomFailedFrame(room, reason));
      }
    }

    /** Take the next action and act on it. */
    method DrainOne()
      requires Draining() && table.actions != []
      modifies this, table`actions
      ensures Draining() && table.State() == old(table.State()).(actions := table.actions) && tame == old(tame)
      ensures asked == old(asked) && old(table.actions) == [old(table.actions)[0]] + table.actions
      ensures Carries(old(W()), old(table.actions)[0], W())
    {
      hide Requests, Base, Core, Outstanding, RemovalsGone, Reachables, Agree, Balanced, IsTame, AcksAfter, AnswerTo, PollAction,
           Carries;
      ghost var before, entries, counted := table.State(), connections, answered;
      PollSplits(before);
      var action := table.PollAction();
      ApplyPoll(before);
      Note(before, PollStep);
      ghost var w := W();
      Carry(action.value);
      CarriesKeeps(w, action.value, W());
      PollKeeps(before, action.value, entries, connections);
      if tame { PollBalance(before, table.State(), asked, counted, answered, action.value); }
    }

    method DrainActions()
      requires Draining()
      modifies this, table`actions
      ensures Valid() && table.State() == old(table.State()).(actions := []) && tame == old(tame) && asked == old(asked)
      ensures Drains(old(W()), old(table.actions), W())
    {
      hide Draining, Carries, RemovalsGone, V2Presence.NoRemovals;
      ghost var actions, w := table.actions, W();
      while table.actions != []
        invariant Draining() && tame == old(tame) && asked == old(asked)
        invariant table.State() == old(table.State()).(actions := table.actions)
        invariant forall w': Wires :: Drains(W(), table.actions, w') ==> Drains(w, actions, w')
        decreases |table.actions|
      {
        ghost var w1, a1 := W(), table.actions;
        DrainOne();
        forall w': Wires | Drains(W(), table.actions, w') ensures Drains(w, actions, w') {
          DrainsCons(w1, a1[0], W(), table.actions, w');
        }
      }
      assert Drains(W(), [], W());
      DrainedSays(table.State());
    }
  
    // ---- browsers ----

    method Register(connection: ConnectionId, roomid: string, client: Option<ClientId>, token: string)
      returns (ghost order: seq<ClientId>)
      requires Valid()
      modifies this, table
      ensures Valid() && asked == old(asked) && answered == old(answered)
      ensures Handles(old(L()), Registering(connection, roomid, client, token, order), L())
    {
      hide Requests, Base, Core, Outstanding, RemovalsGone, Reachables, IsTame, AcksAfter, V2Steps.Register, NoRemovals,
           Apply, ProperOrders, ParseRoomToken, Agree, HandlesSend, HandlesClose, HandlesRequest, HandlesReport,
           HandlesTick, SendRefused, Stands, KeyOf;
      order := [];
      if connection in sessions && sessions[connection].RegisteredV2? {
        FailConnection(connection, "Duplicated register request");
        return;
      }
      var room := ParseRoomToken(roomid);
      if room.None? {
        FailConnection(connection, "INVALID_ROOM_ID");
      } else if client.None? {
        FailConnection(connection, "INVALID_CLIENT_ID");
      } else if token == "" {
        FailConnection(connection, "UNAUTHORIZED");
      } else {
        order := RegisterMember(connection, room.value, client.value, token);
      }
    }

    method RegisterMember(connection: ConnectionId, r: RoomId, c: ClientId, token: string)
      returns (ghost order: seq<ClientId>)
      requires Valid() && (connection in sessions ==> sessions[connection] == Connected)
      modifies this, table
      ensures Valid() && asked == old(asked) && answered == old(answered)
      ensures ProperOrders(old(table.State()), RegisterStep(r, c, token, order))
      ensures var done := V2Steps.Register(old(table.State()), r, c, token, order);
              && table.State() == done.0
              && W() == if done.1.Err? then Fails(old(W()), connection, done.1.error)
                        else Entered(old(W()), connection, r, c, done.1.value)
    {
      hide Requests, Base, Core, Outstanding, RemovalsGone, Reachables, IsTame, AcksAfter, V2Steps.Register, NoRemovals, Apply,
           ProperOrders, Agree, Entered, Fails, Balanced, RegisterRefused, ParseRoomToken;
      ghost var before := table.State();
      var registered;
      registered, order := table.Register(r, c, token);
      ApplyRegister(before, r, c, token, order);
      Note(before, RegisterStep(r, c, token, order));
      if tame { SameBalance(before, RegisterStep(r, c, token, order), table.State(), asked, answered); }
      RegisterKeeps(before, r, c, token, order, connections, connection);
      if registered.Err? {
        FailConnection(connection, registered.error);
        FailsSame(old(W()), connection, registered.error);
      } else {
        NobodyElse(sessions, connections, connection, (r, c));
        EnteredSame(W(), connection, r, c, registered.value);
        Enter(connection, r, c, registered.value);
      }
    }

    method Enter(connection: ConnectionId, r: RoomId, c: ClientId, value: Registration)
      modifies this`sessions, this`connections, this`outputs
      ensures W() == Entered(old(W()), connection, r, c, value)
    {
      sessions := sessions[connection := RegisteredV2(r, c)];
      connections := connections[(r, c) := connection];
      outputs := outputs + [Text(connection, RegisteredFrame(r, value.signalEpoch, value.mode, value.isInitiator))];
      Relay(connection, value.queued);
    }

    /** A frame that the authority routes to a peer finds the peer's connection entry. */
    method Send(connection: ConnectionId, message: string, epoch: Option<nat>)
      returns (result: Result<(), string>, ghost order: seq<ClientId>)
      requires Valid()
      modifies this, table
      ensures Valid() && asked == old(asked)
      ensures Handles(old(L()), Sending(connection, message, epoch, order), L())
      ensures result == SendOutcome(old(L()), connection, message, epoch, order)
      ensures SendRefused(old(W()), connection, message).None? && epoch.Some? ==>
                var session := old(sessions)[connection];
                var sent := V2Steps.Send(old(table.State()), session.room, session.client, epoch.value, message, order).1;
                sent.Ok? && sent.value.ToPeer? && sent.value.delivery.Some? ==>
                  var delivery := sent.value.delivery.value;
                  delivery.message == message && (delivery.room, delivery.client) in old(connections)
    {
      hide Requests, Base, Core, Outstanding, Reachables, IsTame, AcksAfter, V2Steps.Send, NoRemovals, Apply,
           ProperOrders, Agree, RemovalsGone, Notices, HandlesRegister, HandlesClose, HandlesRequest, HandlesReport,
           HandlesTick, RegisterRefused, Stands, KeyOf, ParseRoomToken;
      result, order := Ok(()), [];
      if connection !in sessions {
        FailConnection(connection, "Client not registered");
      } else if message == "" {
        FailConnection(connection, "Invalid send request: missing 'msg'");
      } else if sessions[connection] == Connected {
        FailConnection(connection, "Client not registered");
      } else if epoch.Some? {
        result, order := Forward(sessions[connection].room, sessions[connection].client, epoch.value, message);
      }
    }

    /** Let the authority route a frame. */
    method Forward(r: RoomId, c: ClientId, epoch: nat, message: string)
      returns (result: Result<(), string>, ghost order: seq<ClientId>)
      requires Valid()
      modifies this, table
      ensures Valid() && asked == old(asked)
      ensures ProperOrders(old(table.State()), SendStep(r, c, epoch, message, order))
      ensures var done := V2Steps.Send(old(table.State()), r, c, epoch, message, order);
              if done.1.Err? then
                result == Err(done.1.error) && W() == old(W()) && table.State() == old(table.State())
              else
                && result == Ok(()) && table.State() == done.0.(actions := [])
                && Drains(SendReply(old(W()), done.1.value), done.0.actions, W())
                && (done.1.value.ToPeer? && done.1.value.delivery.Some? ==>
                      var delivery := done.1.value.delivery.value;
                      delivery.message == message && (delivery.room, delivery.client) in old(connections))
    {
      hide Requests, Base, Core, Outstanding, Reachables, IsTame, AcksAfter, V2Steps.Send, NoRemovals, Apply, ProperOrders, Agree,
           RemovalsGone, Notices, Drains;
      ghost var before := table.State();
      var sent;
      sent, order := table.Send(r, c, epoch, message);
      ghost var step := SendStep(r, c, epoch, message, order);
      ApplySend(before, r, c, epoch, message, order);
      SendSays(before, r, c, epoch, message, order);
      NoneGone(table.State());
      Took(before, step);
      if sent.Err? {
        SendFails(before, r, c, epoch, message, order);
        return Err(sent.error), order;
      }
      if sent.value.ToPeer? && sent.value.delivery.Some? {
        var delivery := sent.value.delivery.value;
        SendRoutes(before, r, c, epoch, message, order, connections);
        Notify(delivery.room, [delivery.client], RelayFrame(delivery.message));
      }
      DrainActions();
      result := Ok(());
    }

    method Disconnect(connection: ConnectionId, now: Instant)
      requires Valid()
      modifies this, table
      ensures Valid() && asked == old(asked)
      ensures Handles(old(L()), Closing(connection, now), L())
    {
      hide Requests, Base, Core, Outstanding, Reachables, IsTame, AcksAfter, V2Steps.Deregister, NoRemovals, Apply,
           ProperOrders, RemovalsGone, Agree, Drains, HandlesRegister, HandlesSend, HandlesRequest, HandlesReport,
           HandlesTick, RegisterRefused, SendRefused, ParseRoomToken;
      if connection !in sessions {
        assert sessions - {connection} == sessions;
        return;
      }
      ForgottenAgrees(W(), connection);
      var session := sessions[connection];
      if session.RegisteredV2? && (session.room, session.client) in connections
         && connections[(session.room, session.client)] == connection
      {
        GoOffline(connection, session.room, session.client, now);
        DrainActions();
      } else {
        sessions := sessions - {connection};
      }
    }

    method GoOffline(connection: ConnectionId, r: RoomId, c: ClientId, now: Instant)
      requires Valid() && Agree(sessions - {connection}, connections - {(r, c)})
      modifies this, table
      ensures Draining() && asked == old(asked)
      ensures W() == old(W()).(sessions := old(sessions) - {connection}, connections := old(connections) - {(r, c)})
      ensures table.State() == V2Steps.Deregister(old(table.State()), now, r, c)
      ensures ProperOrders(old(table.State()), DeregisterStep(now, r, c))
    {
      hide Requests, Base, Core, Outstanding, Reachables, IsTame, AcksAfter, V2Steps.Deregister, NoRemovals, Apply, ProperOrders,
           RemovalsGone, Agree;
      ghost var before := table.State();
      table.Deregister(now, r, c);
      ghost var step := DeregisterStep(now, r, c);
      ApplyDeregister(before, now, r, c);
      DeregisterSays(before, now, r, c);
      NoneGone(table.State());
      Took(before, step);
      WentOffline(before, now, r, c, connections);
      sessions, connections := sessions - {connection}, connections - {(r, c)};
    }

    // ---- the authority's callers ----

    method Occupancy(room: RoomId) returns (answer: Answer)
      ensures answer == OccupancyAnswer(table.State().rooms, room)
    {
      answer := if room in table.rooms then OccupancyOfV2(|table.rooms[room].members|, table.rooms[room].mode)
                else OccupancyOfV2(0, P2p);
    }

    method HandleAuthority(request: RequestId, operation: Operation)
      requires Valid()
      modifies this, table
      ensures Valid() && asked == old(asked) + multiset{request}
      ensures Handles(old(L()), Requesting(request, operation), L())
    {
      hide Requests, Base, Core, Outstanding, Reachables, RemovalsGone, Agree, NoRemovals, V2Steps.Admit,
           V2Steps.Remove, Drains, AdmitReply, RemoveReply, HandlesRegister, HandlesSend, HandlesClose, HandlesReport,
           HandlesTick, RegisterRefused, SendRefused, Stands, KeyOf, ParseRoomToken, OccupancyAnswer;
      asked := asked + multiset{request};
      match operation {
        case AdmitV2(room, client, token, now) => AdmitClient(request, room, client, token, now);
        case RemoveV2(room, client, token) => RemoveClient(request, room, client, token);
        case OccupancyV2(room) =>
          var answer := Occupancy(room);
          AnswerOne(request, answer);
          DrainActions();
      }
    }

    /** Everything is accounted for but the one request just asked. */
    ghost predicate Asking(request: RequestId)
      reads this, table
    {
      && Wired()
      && RemovalsGone(table.State())
      && (tame ==> Core(table.State(), acks, true)
                   && forall x: Ticket :: asked[x] == answered[x] + Outstanding(table.State(), x) + One(x == request))
    }

    /** The answer settles the account. */
    method AnswerOne(request: RequestId, answer: Answer)
      requires Asking(request)
      modifies this`responses, this`answered
      ensures Draining() && W() == Answered(old(W()), request, answer)
    {
      hide Requests, Base, Core, Outstanding, Reachables, RemovalsGone, Agree;
      Respond(request, answer);
    }

    method AdmitClient(request: RequestId, room: RoomId, client: ClientId, token: string, now: Instant)
      requires Asking(request) && NoRemovals(table.actions)
      modifies this, table
      ensures Valid() && asked == old(asked)
      ensures ProperOrders(old(table.State()), AdmitStep(request, now, room, client, token))
      ensures var done := V2Steps.Admit(old(table.State()), request, now, room, client, token);
              && table.State() == done.0.(actions := [])
              && Drains(AdmitReply(old(W()), request, done.1), done.0.actions, W())
    {
      hide Requests, Base, Core, Outstanding, RemovalsGone, Reachables, IsTame, AcksAfter, V2Steps.Admit, NoRemovals, Apply,
           ProperOrders, Agree, Opened, Popped, Drains;
      ghost var before := table.State();
      ghost var step := AdmitStep(request, now, room, client, token);
      var admitted := table.Admit(request, now, room, client, token);
      ApplyAdmit(before, request, now, room, client, token);
      AdmitSays(before, request, now, room, client, token);
      NoneGone(table.State());
      NoteAsked(before, step, request);
      OpenedByAdmit(before, request, now, room, client, token);
      if admitted.Err? {
        AnswerOne(request, Refused(admitted.error));
      } else if admitted.value.Complete? {
        AnswerOne(request, AdmittedV2(admitted.value.admission));
      }
      DrainActions();
    }

    method RemoveClient(request: RequestId, room: RoomId, client: ClientId, token: string)
      requires Asking(request) && NoRemovals(table.actions)
      modifies this, table
      ensures Valid() && asked == old(asked)
      ensures ProperOrders(old(table.State()), RemoveStep(request, room, client, token))
      ensures var done := V2Steps.Remove(old(table.State()), request, room, client, token);
              && table.State() == done.0.(actions := [])
              && Drains(RemoveReply(old(W()), request, room, client, done.1), done.0.actions, W())
    {
      hide Requests, Base, Core, Outstanding, RemovalsGone, Reachables, IsTame, AcksAfter, V2Steps.Remove, NoRemovals, Apply,
           ProperOrders, Agree, Opened, Popped, Drains, Closed, PromotionNotices;
      ghost var before := table.State();
      ghost var step := RemoveStep(request, room, client, token);
      var removed := table.Remove(request, room, client, token);
      ApplyRemove(before, request, room, client, token);
      RemoveSays(before, request, room, client, token);
      NoneGone(table.State());
      NoteAsked(before, step, request);
      OpenedByRemove(before, request, room, client, token);
      if removed.Err? {
        AnswerOne(request, Refused(removed.error));
      } else if removed.value.Removed? {
        RemovedGone(before, request, room, client, token);
        FinishRemoval(request, room, client, removed.value.promotion);
      }
      DrainActions();
    }

    /** The member is gone: close its socket, promote its peer, and answer. */
    method FinishRemoval(request: RequestId, room: RoomId, client: ClientId, promotion: Option<Promotion>)
      requires Asking(request) && !Present(RoomAt(table.State(), room), client)
      modifies this`sessions, this`connections, this`outputs, this`responses, this`answered
      ensures Draining() && W() == RemoveReply(old(W()), request, room, client, Ok(Removed(promotion)))
    {
      hide Requests, Base, Core, Outstanding, RemovalsGone, Reachables, Agree, Closed, PromotionNotices, Present;
      LetGo(room, client);
      PushPromotions(if promotion.Some? then [promotion.value] else []);
      AnswerOne(request, RemovedV2);
    }

    /** Close the socket of a member that is gone. */
    method LetGo(room: RoomId, client: ClientId)
      requires Wired() && !Present(RoomAt(table.State(), room), client)
      modifies this`sessions, this`connections, this`outputs
      ensures Wired() && W() == Closed(old(W()), room, client)
    {
      hide Requests, Base, Reachables, Present;
      ClosedAgrees(W(), room, client);
      GoneEntry(table.State(), room, client, connections);
      ghost var w := W();
      CloseClientConnection(room, client);
      assert connections == w.connections - {(room, client)};
    }

    /** Take note of a step that the request just asked has made. */
    ghost method NoteAsked(before: Table, step: Step, request: RequestId)
      requires Base(before) && ProperOrders(before, step) && table.State() == Apply(before, step) && table.Valid()
      requires Counted() && Agree(sessions, connections) && Reachables(before, connections)
      requires step.AdmitStep? || step.RemoveStep?
      requires tame ==> Core(before, acks, true)
                        && forall x: Ticket :: asked[x] == answered[x] + Outstanding(before, x) + One(x == request)
      modifies this`acks, this`tame
      ensures Wired() && (tame ==> old(tame) && Core(table.State(), acks, true))
      ensures tame ==> forall x: Ticket :: asked[x] + Opened(before, step, x)
                                           == answered[x] + Outstanding(table.State(), x) + One(x == request)
    {
      hide Requests, Base, Apply, Core, Opened, Outstanding, ProperOrders, AcksAfter, IsTame, Popped, Reachables, Agree;
      ghost var counted := asked - multiset{request};
      if tame && IsTame(before, step) {
        forall x: Ticket ensures counted[x] == answered[x] + Outstanding(before, x) { }
        StepBalance(before, step, acks, counted, answered);
        NonePopped(before, step);
      }
      tame := tame && IsTame(before, step);
      acks := AcksAfter(before, acks, step);
      StepReachables(before, step, connections);
    }

    // ---- workers and time ----

    method HandleSfu(input: SfuInput) returns (result: Result<(), string>, ghost rooms: seq<RoomId>, ghost commands: seq<RequestId>)
      requires Valid()
      modifies this, table
      ensures Valid() && asked == old(asked)
      ensures Handles(old(L()), Reporting(input, rooms, commands), L())
      ensures result.Ok? == SfuStep(old(table.State()), input, rooms, commands).1.Ok?
    {
      hide Requests, Base, Core, Outstanding, RemovalsGone, Reachables, IsTame, AcksAfter, NoRemovals, Apply, ProperOrders, Agree,
           Drains, SfuStep, StepOf, InOrder, HandlesRegister, HandlesSend, HandlesClose, HandlesRequest, HandlesTick;
      result, rooms, commands := Hear(input);
      if result.Ok? { DrainActions(); }
    }

    /** The authority hears what a worker says. */
    method Hear(input: SfuInput) returns (result: Result<(), string>, ghost rooms: seq<RoomId>, ghost commands: seq<RequestId>)
      requires Valid()
      modifies this, table
      ensures Draining() && (result.Err? ==> Valid()) && asked == old(asked) && W() == old(W())
      ensures InOrder(old(L()), Reporting(input, rooms, commands))
      ensures var done := SfuStep(old(table.State()), input, rooms, commands);
              table.State() == done.0 && result.Ok? == done.1.Ok?
    {
      hide Requests, Base, Core, Outstanding, RemovalsGone, Reachables, IsTame, AcksAfter, NoRemovals, Apply, ProperOrders, Agree,
           HandleResult, HandleEvent, V2Steps.RegisterWorker, LoseWorker, RegisterRefused, SendRefused, Stands, KeyOf,
           ParseRoomToken;
      ghost var before := table.State();
      ghost var was := tame;
      ghost var step;
      result, rooms, commands := Ok(()), [], [];
      match input {
        case RegisterInput(connection, i, id, capacity) =>
          rooms, commands := table.RegisterWorker(connection, i, id, capacity);
          step := WorkerStep(connection, i, id, capacity, rooms, commands);
          ApplyWorker(before, connection, i, id, capacity, rooms, commands);
          StepSays(before, step);
          NoneGone(table.State());
        case ResultInput(connection, i, answer, now) =>
          result := table.HandleCommandResult(connection, i, answer, now);
          step := ResultStep(connection, i, answer, now);
          ApplyResult2(before, connection, i, answer, now);
          ResultSays(before, connection, i, answer, now);
          if was && result.Err? { TameResult(before, acks, connection, i, answer, now); }
        case EventInput(connection, i, event) =>
          result := table.HandleWorkerEvent(connection, i, event);
          step := EventStep(connection, i, event);
          ApplyEvent(before, connection, i, event);
          StepSays(before, step);
          NoneGone(table.State());
          if result.Err? { EventErrors(before, connection, i, event); }
        case DisconnectedInput(connection, i, now) =>
          table.Disconnected(connection, i, now);
          step := LostStep(connection, i, now);
          ApplyLost(before, connection, i, now);
          StepSays(before, step);
          NoneGone(table.State());
      }
      Took(before, step);
    }

    method HandleTimeout(now: Instant) returns (ghost s: Schedule)
      requires Valid()
      modifies this, table
      ensures Valid() && asked == old(asked)
      ensures Handles(old(L()), Ticking(now, s), L())
    {
      hide Requests, Base, Core, Outstanding, RemovalsGone, Reachables, IsTame, AcksAfter, NoRemovals, Apply,
           ProperOrders, Agree, V2Steps.HandleTimeout, TimeoutOrders, PromotionNotices, Drains, HandlesRegister,
           HandlesSend, HandlesClose, HandlesRequest, HandlesReport, RegisterRefused, SendRefused, Stands, KeyOf,
           ParseRoomToken;
      ghost var before := table.State();
      var promotions;
      promotions, s := table.HandleTimeout(now);
      ghost var step := TimeoutStep(now, s);
      ApplyTimeout(before, now, s);
      StepSays(before, step);
      NoneGone(table.State());
      Took(before, step);
      PushPromotions(promotions);
      DrainActions();
    }

    method PollOutput() returns (output: Option<BrowserOutput>)
      requires Valid()
      modifies this`outputs
      ensures Valid()
      ensures Handles(old(L()), TakingOutput, L())
      ensures output == if old(outputs) == [] then None else Some(old(outputs)[0])
    {
      hide Requests, Base, Core, Outstanding, RemovalsGone, Reachables, Agree, Balanced, HandlesRegister, HandlesSend,
           HandlesClose, HandlesRequest, HandlesReport, HandlesTick, RegisterRefused, SendRefused, Stands, KeyOf,
           ParseRoomToken;
      output := None;
      if outputs != [] { output, outputs := Some(outputs[0]), outputs[1..]; }
    }

    method PollResponse() returns (response: Option<Response>)
      requires Valid()
      modifies this`responses, this`taken
      ensures Valid()
      ensures Handles(old(L()), TakingResponse, L())
      ensures response == if old(responses) == [] then None else Some(old(responses)[0])
      ensures taken == old(taken) + if response.Some? then [response.value] else []
    {
      hide Requests, Base, Core, Outstanding, RemovalsGone, Reachables, Agree, Balanced, HandlesRegister, HandlesSend,
           HandlesClose, HandlesRequest, HandlesReport, HandlesTick, RegisterRefused, SendRefused, Stands, KeyOf,
           ParseRoomToken;
      response := None;
      if responses != [] {
        assert taken + responses == taken + [responses[0]] + responses[1..];
        response, taken, responses := Some(responses[0]), taken + [responses[0]], responses[1..];
      }
    }
  }

  /** End to end: as long as the environment has kept to E1 and E2, every request asked has been answered
      once, or waits in exactly one room; none is lost and none is answered twice. */
  lemma AnsweredOrHeld(collider: Collider, x: RequestId)
    requires collider.Valid() && collider.tame
    ensures collider.asked[x]
            == Requests(collider.taken + collider.responses)[x] + Sum(collider.table.rooms, HeldOf(x))
  {
    hide Core, Base;
    assert Completions(collider.table.State().actions, x) == 0;
  }
}
