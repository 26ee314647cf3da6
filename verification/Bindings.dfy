/** Token binding, end to end: which socket speaks for a member, and exactly when one is left that no longer does. */
module Bindings {
  import opened Wrappers
  import opened Sfu
  import opened V2State
  import opened V2Steps
  import opened V2Moves
  import opened V2RoomSteps
  import opened V2Slots
  import opened V2SlotSteps
  import opened V2SlotTimers
  import opened V2RoomViews
  import opened V2Commands
  import opened V2Presence
  import opened V2Runs
  import V2Failures
  import opened V2Strays
  import opened V2Departures
  import opened ColliderSteps
  import opened RoomToken
  import opened Sockets
  import opened Layers

  // ---- members that go while connected ----

  /** The token of a connected member. */
  ghost function Seat(t: Table, k: Key): Option<string> {
    if Online(RoomAt(t, k.0), k.1) then Some(t.rooms[k.0].members[k.1].token) else None
  }

  /** The connected member goes, and nobody is told that its socket is to be closed: its own disconnect has sent the
      Leave that now succeeds; or it has connected while joining, and is turned away. */
  ghost predicate Slips(t: Table, step: Step, k: Key) {
    Online(RoomAt(t, k.0), k.1) &&
    var room := t.rooms[k.0];
    (|| (EndsLeave(t, step, k.0) && LeaveSucceeds(t, step) && LeaveFor(room, k.1) && room.pendingLeave.value.ticket.None?)
     || (EndsJoin(t, step, k.0) && !JoinAccepted(t, step) && Awaits(room, k.1))
     || (V2Failures.Fails(t, step, k.0) && Awaits(room, k.1)))
  }

  /** The Leave that a removal asked for succeeds. */
  ghost predicate Told(t: Table, step: Step, k: Key) {
    && EndsLeave(t, step, k.0) && LeaveSucceeds(t, step) && LeaveFor(t.rooms[k.0], k.1)
    && t.rooms[k.0].pendingLeave.value.ticket.Some?
  }

  /** The step takes the member out, or offline, and its socket goes with it. */
  ghost predicate Goes(t: Table, step: Step, k: Key) {
    Told(t, step, k) || Removes(t, step, k.0, k.1) || V2Departures.Disconnects(step, k.0, k.1)
  }

  ghost predicate Enters(t: Table, step: Step) {
    step.RegisterStep? && Register(t, step.room, step.client, step.token, step.order).1.Ok?
  }

  lemma DepartsOrSlips(t: Table, step: Step, k: Key)
    requires Online(RoomAt(t, k.0), k.1)
    ensures V2Departures.Departs(t, step, k.0, k.1) || V2Departures.Disconnects(step, k.0, k.1)
            <==> Goes(t, step, k) || Slips(t, step, k)
  {
    hide EndsLeave, EndsJoin, LeaveSucceeds, JoinAccepted, V2Failures.Fails, Removes;
  }

  /** A step seats nobody new, unless it is a registration that succeeds; and unseats whoever goes. */
  lemma StepSeats(t: Table, step: Step, k: Key, acks: Acks)
    requires Core(t, acks, true) && ProperOrders(t, step) && !ReachesFailRoom(t, step) && !Enters(t, step)
    ensures Seat(Apply(t, step), k) == if Goes(t, step, k) || Slips(t, step, k) then None else Seat(t, k)
  {
    assert RoomsOk(t, false) by { Weaken(t, true); }
    hide Core, ProperOrders, ReachesFailRoom, RoomsOk, Online, Goes, Slips, Enters, V2Departures.Departs;
    if Online(RoomAt(t, k.0), k.1) {
      StepFares(t, step, k.0, k.1, acks);
      DepartsOrSlips(t, step, k);
      AbsentIsOffline(RoomAt(Apply(t, step), k.0), k.1);
      if step.DeregisterStep? { DisconnectedIsOffline(t, step.now, step.room, step.client); }
    } else {
      if Online(RoomAt(Apply(t, step), k.0), k.1) {
        StepOnline(t, step, k.0, k.1);
        RefusedSame(t, step);
      }
    }
    hide Apply;
  }

  lemma AbsentIsOffline(a: Option<Room>, c: ClientId)
    ensures Online(a, c) ==> Present(a, c)
  {
  }

  lemma RefusedSame(t: Table, step: Step)
    requires step.RegisterStep? && !Enters(t, step)
    ensures Apply(t, step) == t
  {
  }

  // ---- what the layer does about it ----

  /** The sockets of `gone`, and those of `hung`, which stand for nobody, are forgotten; no other registered one is. */
  ghost predicate Shrinks(w: Wires, w': Wires, gone: iset<Key>, hung: set<ConnectionId>) {
    && (forall k: Key :: k in w'.connections <==> k in w.connections && k !in gone)
    && (forall k: Key :: k in w'.connections ==> w'.connections[k] == w.connections[k])
    && (forall x, k: Key ::
          IsRegistered(w', x, k) <==> IsRegistered(w, x, k) && x !in hung && !(Leads(w, k, x) && k in gone))
    && (forall x :: x in hung ==> !Stands(w, x))
  }

  ghost predicate IsRegistered(w: Wires, x: ConnectionId, k: Key) {
    x in w.sessions && w.sessions[x] == RegisteredV2(k.0, k.1)
  }

  ghost predicate Leads(w: Wires, k: Key, x: ConnectionId) {
    k in w.connections && w.connections[k] == x
  }

  ghost predicate SameWires(w: Wires, w': Wires) {
    w'.sessions == w.sessions && w'.connections == w.connections
  }

  lemma SameShrinks(w: Wires, w': Wires)
    requires SameWires(w, w')
    ensures Shrinks(w, w', iset{}, {})
  {
  }

  lemma ClosedShrinks(w: Wires, w': Wires, k: Key)
    requires Agree(w.sessions, w.connections) && SameWires(Closed(w, k.0, k.1), w')
    ensures Shrinks(w, w', iset{k}, {})
  {
  }

  lemma {:induction false} QuietDrain(w: Wires, actions: seq<Action>, w': Wires)
    requires Drains(w, actions, w') && V2Presence.NoRemovals(actions)
    ensures SameWires(w, w')
    decreases |actions|
  {
    if actions != [] {
      var mid: Wires :| Carries(w, actions[0], mid) && Drains(mid, actions[1..], w');
      assert actions[0] in actions && forall a :: a in actions[1..] ==> a in actions;
      CarriesKeeps(w, actions[0], mid);
      QuietDrain(mid, actions[1..], w');
      hide Carries, Drains, Agree, AnswerTo;
    }
  }

  lemma ClosingDrain(w: Wires, action: Action, w': Wires)
    requires Drains(w, [action], w') && action.RemovalCompleted? && action.removal.Ok?
    ensures SameWires(Closed(w, action.room, action.client), w')
  {
    var mid: Wires :| Carries(w, action, mid) && Drains(mid, [action][1..], w');
    assert [action][1..] == [];
  }

  lemma LeaveAnnounces(t: Table, i: InstanceId, p: PendingCommand, result: CommandResult, now: Instant, ticket: Ticket)
    requires p.SfuLeave? && p.instance == i && Left(result, p) && t.actions == []
    requires p.room in t.rooms && t.rooms[p.room].pendingLeave == Some(PendingLeave(Some(ticket), p.client))
    ensures SfuLeaveResult(t, i, p, result, now).0.actions == [RemovalCompleted(ticket, p.room, p.client, Ok(()))]
  {
    hide Left, Armed, ErrorReason, DebitWorker, WithoutMember, PutOrReap;
    var rest := WithoutMember(t.rooms[p.room].(pendingLeave := None), p.client);
    DebitKeeps(t, i, p.room, rest.members == map[]);
    var notice := RemovalNotice(t.rooms[p.room].pendingLeave.value, p.room, p.client, Ok(()));
    ReapSays(PushAll(DebitWorker(t, i, p.room, rest.members == map[]), notice), p.room, Armed(t.dwell, rest, now));
    assert [] + notice == notice;
  }

  lemma ToldIs(t: Table, step: Step, k: Key, acks: Acks) returns (ticket: Ticket)
    requires SlotAt(t, k.0, acks, true) && Told(t, step, k)
    ensures Answers(t, step) && t.pending[step.result.id].SfuLeave?
    ensures var p := t.pending[step.result.id];
            && p.instance == step.instance && Left(step.result, p) && p.room == k.0 && p.client == k.1
            && k.0 in t.rooms && t.rooms[k.0].pendingLeave == Some(PendingLeave(Some(ticket), p.client))
  {
    hide SlotAt, Left, SfuOk;
    LeaveNamed(t, step, k.0, acks, true);
    ticket := t.rooms[k.0].pendingLeave.value.ticket.value;
  }

  lemma LeaveAnswered(t: Table, step: Step)
    requires Answers(t, step) && t.pending[step.result.id].SfuLeave?
    ensures Apply(t, step)
            == SfuLeaveResult(Forget(t, {step.result.id}), step.instance, t.pending[step.result.id], step.result, step.now).0
  {
    hide Apply, SfuLeaveResult;
    AnswerIs(t, step);
  }

  /** A removal that a Leave completes is announced, and nothing else is. */
  lemma ToldSays(t: Table, step: Step, k: Key, acks: Acks) returns (ticket: Ticket)
    requires Core(t, acks, true) && Told(t, step, k) && t.actions == []
    ensures Apply(t, step).actions == [RemovalCompleted(ticket, k.0, k.1, Ok(()))]
  {
    assert SlotAt(t, k.0, acks, true);
    hide SlotAt, Core, Left, SfuLeaveResult, Told, Answers, Apply;
    ticket := ToldIs(t, step, k, acks);
    LeaveAnswered(t, step);
    LeaveAnnounces(Forget(t, {step.result.id}), step.instance, t.pending[step.result.id], step.result, step.now, ticket);
  }

  lemma QuietLeave(t: Table, i: InstanceId, p: PendingCommand, result: CommandResult, now: Instant)
    requires p.SfuLeave? && V2Presence.NoRemovals(t.actions)
    requires p.room in t.rooms && t.rooms[p.room].pendingLeave.Some? && p.instance == i && Left(result, p) ==>
               t.rooms[p.room].pendingLeave.value.ticket.None?
    ensures V2Presence.NoRemovals(SfuLeaveResult(t, i, p, result, now).0.actions)
  {
    hide Left, Armed, ErrorReason, DebitWorker, WithoutMember, PutOrReap;
    if p.room in t.rooms && t.rooms[p.room].pendingLeave.Some? {
      var rest := WithoutMember(t.rooms[p.room].(pendingLeave := None), p.client);
      DebitKeeps(t, i, p.room, rest.members == map[]);
      ReapSays(PushAll(DebitWorker(t, i, p.room, rest.members == map[]),
                       RemovalNotice(t.rooms[p.room].pendingLeave.value, p.room, p.client, Ok(()))), p.room,
               Armed(t.dwell, rest, now));
    }
  }

  lemma QuietResult(t: Table, step: Step)
    requires step.ResultStep? && V2Presence.NoRemovals(t.actions) && (forall k: Key :: !Told(t, step, k))
    ensures V2Presence.NoRemovals(Apply(t, step).actions)
  {
    if Answers(t, step) {
      AnswerIs(t, step);
      var p, t1 := t.pending[step.result.id], Forget(t, {step.result.id});
      if p.SfuLeave? {
        if p.room in t.rooms && t.rooms[p.room].pendingLeave.Some? {
          assert !Told(t, step, (p.room, t.rooms[p.room].pendingLeave.value.client));
        }
        hide Left;
        QuietLeave(t1, step.instance, p, step.result, step.now);
      } else {
        QuietAnswer(t1, step, p);
      }
      hide Apply, SyncResult, UpgradeJoinResult, SfuJoinResult, SfuLeaveResult, V2Presence.NoRemovals, Told;
    }
  }

  lemma QuietAnswer(t: Table, step: Step, p: PendingCommand)
    requires step.ResultStep? && !p.SfuLeave? && V2Presence.NoRemovals(t.actions)
    ensures V2Presence.NoRemovals(V2RoomViews.Answered(t, step.instance, step.connection, p, step.result, step.now).actions)
  {
    hide SyncResult, UpgradeAck, AbortUpgrade, SfuJoinResult, V2Presence.NoRemovals;
    match p {
      case SyncPending(_, _, _, _) => SyncSays(t, step.connection, step.instance, p, step.result);
      case UpgradeJoin(_, _) =>
        UpgradeAckSays(t, p);
        AbortSays(t, p.join.room, ErrorReason(step.result));
      case SfuJoin(_, _) => SfuJoinSays(t, step.instance, p, step.result);
      case SignalPending =>
      case CleanupPending =>
    }
  }

  // ---- the table under an input ----

  /** The environment keeps to E1 and E2. */
  ghost predicate Tidy(a: Layer, input: Input) {
    StepOf(a, input).Some? ==> IsTame(a.table, StepOf(a, input).value)
  }

  /** The table is as a tame run leaves it, and everything queued has been acted on. */
  ghost predicate Sound(t: Table) {
    t.actions == [] && exists acks: Acks :: Core(t, acks, true)
  }

  lemma DrainedCore(t: Table, acks: Acks)
    requires Core(t, acks, true)
    ensures Core(t.(actions := []), acks, true)
  {
    var t' := t.(actions := []);
    assert CommandsOk(t') by {
      assert forall command :: IsIssued(t, command) == IsIssued(t', command);
      forall k | k in t'.pending && t'.pending[k].SyncPending? ensures ReplayOk(t', t'.pending[k]) {
        assert ReplayOk(t, t.pending[k]);
      }
    }
    hide CommandsOk, RoomsOk, SlotOk;
    forall r: RoomId ensures SlotAt(t', r, acks, true) {
      assert SlotAt(t, r, acks, true);
      assert ViewOf(t', r) == ViewOf(t, r);
    }
  }

  /** The table after an input is the table after its step, with its actions acted on. */
  lemma TableOf(a: Layer, input: Input, b: Layer)
    requires Sound(a.table) && Handles(a, input, b) && Tidy(a, input)
    ensures b.table == match StepOf(a, input)
                       case None => a.table
                       case Some(step) => Apply(a.table, step).(actions := [])
  {
    hide Apply, Drains, Core, IsTame, ProperOrders, RegisterRefused, SendRefused, ParseRoomToken, Register, Send, Deregister,
         Admit, Remove, RegisterWorker, HandleResult, HandleEvent, LoseWorker, HandleTimeout, TimeoutOrders, Stands, KeyOf;
    match input {
      case Registering(x, roomid, client, token, order) =>
        if RegisterRefused(a.wires, x, roomid, client, token).None? {
          RegisterTable(a.table, StepOf(a, input).value);
        }
      case Sending(x, message, epoch, order) =>
        if SendRefused(a.wires, x, message).None? && epoch.Some? { SendTable(a.table, StepOf(a, input).value); }
      case Closing(x, now) => ApplyDeregister(a.table, now, KeyOf(a.wires, x).0, KeyOf(a.wires, x).1);
      case Requesting(request, AdmitV2(room, client, token, now)) =>
        ApplyAdmit(a.table, request, now, room, client, token);
      case Requesting(request, RemoveV2(room, client, token)) => ApplyRemove(a.table, request, room, client, token);
      case Reporting(RegisterInput(x, i, id, capacity), rooms, commands) =>
        ApplyWorker(a.table, x, i, id, capacity, rooms, commands);
      case Reporting(ResultInput(x, i, result, now), _, _) =>
        ApplyResult2(a.table, x, i, result, now);
        ResultTable(a.table, x, i, result, now);
      case Reporting(EventInput(x, i, event), _, _) =>
        ApplyEvent(a.table, x, i, event);
        if HandleEvent(a.table, x, i, event).1.Err? { EventErrors(a.table, x, i, event); }
      case Reporting(DisconnectedInput(x, i, now), _, _) => ApplyLost(a.table, x, i, now);
      case Ticking(now, s) =>
        TickOrders(a.table, now, s);
        ApplyTimeout(a.table, now, s);
      case _ =>
    }
  }

  lemma TickOrders(t: Table, now: Instant, s: Schedule)
    requires ProperOrders(t, TimeoutStep(now, s))
    ensures TimeoutOrders(t, now, s)
  {
    hide TimeoutOrders;
  }

  lemma RegisterTable(t: Table, step: Step)
    requires step.RegisterStep? && t.actions == []
    ensures var done := Register(t, step.room, step.client, step.token, step.order);
            Apply(t, step) == done.0 && done.0.actions == []
  {
  }

  lemma SendTable(t: Table, step: Step)
    requires step.SendStep? && t.actions == []
    ensures var done := Send(t, step.room, step.client, step.epoch, step.message, step.order);
            Apply(t, step) == done.0 && (done.1.Err? ==> done.0 == t)
  {
    hide Send;
    if Send(t, step.room, step.client, step.epoch, step.message, step.order).1.Err? {
      SendFails(t, step.room, step.client, step.epoch, step.message, step.order);
    }
  }

  lemma ResultTable(t: Table, connection: ConnectionId, i: InstanceId, result: CommandResult, now: Instant)
    requires Sound(t)
    ensures HandleResult(t, connection, i, result, now).1.Err? ==> HandleResult(t, connection, i, result, now).0 == t
  {
    hide Core, HandleResult;
    var acks: Acks :| Core(t, acks, true);
    if HandleResult(t, connection, i, result, now).1.Err? { TameResult(t, acks, connection, i, result, now); }
  }

  /** So the table stays as a tame run leaves it. */
  lemma InputSound(a: Layer, input: Input, b: Layer)
    requires Sound(a.table) && Handles(a, input, b) && Tidy(a, input)
    ensures Sound(b.table)
  {
    TableOf(a, input, b);
    hide Core, Apply, Handles, StepOf, ProperOrders, ReachesFailRoom, LeavesJoiner;
    if StepOf(a, input).Some? {
      var step := StepOf(a, input).value;
      var acks: Acks :| Core(a.table, acks, true);
      StepCore(a.table, step, acks, true);
      DrainedCore(Apply(a.table, step), AcksAfter(a.table, acks, step));
    }
  }

  // ---- what an input does to the sockets ----

  /** The keys whose sockets go with the step of the input. */
  ghost function GoneOf(a: Layer, input: Input): iset<Key> {
    match StepOf(a, input)
    case None => iset{}
    case Some(step) => iset k: Key | Goes(a.table, step, k)
  }

  /** A socket that closes after its member has gone. */
  ghost function HungOf(a: Layer, input: Input): set<ConnectionId> {
    if input.Closing? && !Stands(a.wires, input.connection) then {input.connection} else {}
  }

  /** The input registers a socket. */
  ghost predicate EntersBy(a: Layer, input: Input) {
    StepOf(a, input).Some? && Enters(a.table, StepOf(a, input).value)
  }

  lemma NoneGoes(t: Table, step: Step)
    requires !step.ResultStep? && !step.RemoveStep? && !step.DeregisterStep?
    ensures (iset k: Key | Goes(t, step, k)) == iset{}
  {
  }

  lemma SettledQuiet(t: Table, w: Wires, b: Layer)
    requires Settled(t, w, b) && V2Presence.NoRemovals(t.actions)
    ensures SameWires(w, b.wires)
  {
    QuietDrain(w, t.actions, b.wires);
  }

  /** An input without a step, other than a socket closing, registers and forgets nobody. */
  lemma StillWires(a: Layer, input: Input, b: Layer)
    requires Sound(a.table) && Handles(a, input, b) && StepOf(a, input).None?
    ensures Shrinks(a.wires, b.wires, iset{}, HungOf(a, input))
  {
    hide Core, Drains, ParseRoomToken, V2Presence.NoRemovals;
    if input.Requesting? {
      assert V2Presence.NoRemovals(a.table.actions) by { NoneQueued(a.table); }
      var answer := OccupancyAnswer(a.table.rooms, input.operation.room);
      SettledQuiet(a.table, Sockets.Answered(a.wires, input.request, answer), b);
    }
  }

  lemma NoneQueued(t: Table)
    requires t.actions == []
    ensures V2Presence.NoRemovals(t.actions)
  {
  }

  lemma ReportWires(a: Layer, input: Input, b: Layer)
    requires Sound(a.table) && Handles(a, input, b) && input.Reporting? && !input.input.ResultInput?
    requires V2Presence.NoRemovals(Apply(a.table, StepOf(a, input).value).actions)
    ensures SameWires(a.wires, b.wires)
  {
    hide Core, Drains, V2Presence.NoRemovals, Apply, RegisterWorker, HandleEvent, LoseWorker, ProperOrders;
    var step := StepOf(a, input).value;
    match input.input {
      case RegisterInput(x, i, id, capacity) =>
        ApplyWorker(a.table, x, i, id, capacity, input.rooms, input.commands);
        SettledQuiet(Apply(a.table, step), a.wires, b);
      case EventInput(x, i, event) =>
        ApplyEvent(a.table, x, i, event);
        if HandleEvent(a.table, x, i, event).1.Ok? { SettledQuiet(Apply(a.table, step), a.wires, b); }
      case DisconnectedInput(x, i, now) =>
        ApplyLost(a.table, x, i, now);
        SettledQuiet(Apply(a.table, step), a.wires, b);
    }
  }

  lemma TickWires(a: Layer, input: Input, b: Layer)
    requires Sound(a.table) && Handles(a, input, b) && input.Ticking?
    requires V2Presence.NoRemovals(Apply(a.table, StepOf(a, input).value).actions)
    ensures SameWires(a.wires, b.wires)
  {
    hide Core, Drains, V2Presence.NoRemovals, Apply, HandleTimeout, TimeoutOrders, PromotionNotices, ProperOrders;
    var step, now, s := StepOf(a, input).value, input.now, input.schedule;
    TickOrders(a.table, now, s);
    ApplyTimeout(a.table, now, s);
    var notices := PromotionNotices(a.wires.connections, HandleTimeout(a.table, now, s).1);
    SettledQuiet(Apply(a.table, step), Says(a.wires, notices), b);
  }

  lemma AdmitWires(a: Layer, input: Input, b: Layer)
    requires Sound(a.table) && Handles(a, input, b) && input.Requesting? && input.operation.AdmitV2?
    requires V2Presence.NoRemovals(Apply(a.table, StepOf(a, input).value).actions)
    ensures SameWires(a.wires, b.wires)
  {
    hide Core, Drains, V2Presence.NoRemovals, Apply, Admit, ProperOrders;
    var step, request, wanted := StepOf(a, input).value, input.request, input.operation;
    ApplyAdmit(a.table, request, wanted.now, wanted.room, wanted.client, wanted.token);
    var admitted := Admit(a.table, request, wanted.now, wanted.room, wanted.client, wanted.token).1;
    SettledQuiet(Apply(a.table, step), AdmitReply(a.wires, request, admitted), b);
  }

  lemma RefusedWires(a: Layer, input: Input, b: Layer)
    requires Handles(a, input, b) && input.Registering? && !EntersBy(a, input)
    ensures SameWires(a.wires, b.wires)
  {
    hide ParseRoomToken, Register, ProperOrders;
  }

  /** A step that takes nobody out leaves the sockets alone. */
  lemma QuietWires(a: Layer, input: Input, b: Layer)
    requires Sound(a.table) && Handles(a, input, b) && StepOf(a, input).Some? && !EntersBy(a, input)
    requires input.Sending? || input.Registering? || input.Ticking? || (input.Requesting? && input.operation.AdmitV2?)
             || (input.Reporting? && !input.input.ResultInput?)
    ensures SameWires(a.wires, b.wires)
  {
    var step := StepOf(a, input).value;
    assert !step.ResultStep?;
    NoneQueued(a.table);
    StepSays(a.table, step);
    if input.Sending? { ApplySends(a.table, step); }
    hide Sound, Handles, StepOf, Drains, V2Presence.NoRemovals, Apply, Send, SameWires;
    if input.Sending? { SentSame(a, input, b); }
    else if input.Registering? { RefusedWires(a, input, b); }
    else if input.Ticking? { TickWires(a, input, b); }
    else if input.Requesting? { AdmitWires(a, input, b); }
    else { ReportWires(a, input, b); }
  }

  lemma ApplySends(t: Table, step: Step)
    requires step.SendStep?
    ensures Apply(t, step) == Send(t, step.room, step.client, step.epoch, step.message, step.order).0
  {
    hide Send;
  }

  lemma SentSame(a: Layer, input: Input, b: Layer)
    requires input.Sending? && Handles(a, input, b) && StepOf(a, input).Some?
    requires var step := StepOf(a, input).value;
             V2Presence.NoRemovals(Send(a.table, step.room, step.client, step.epoch, step.message, step.order).0.actions)
    ensures SameWires(a.wires, b.wires)
  {
    hide Send, Drains, V2Presence.NoRemovals, Notices;
    var step := StepOf(a, input).value;
    var done := Send(a.table, step.room, step.client, step.epoch, step.message, step.order);
    if done.1.Ok? { SettledQuiet(done.0, SendReply(a.wires, done.1.value), b); }
  }

  lemma OneGoes(t: Table, step: Step, k: Key)
    requires Goes(t, step, k) && (step.RemoveStep? || step.DeregisterStep?)
    ensures (iset l: Key | Goes(t, step, l)) == iset{k}
  {
    hide Remove;
  }

  lemma ClosingWires(a: Layer, input: Input, b: Layer)
    requires Sound(a.table) && Agree(a.wires.sessions, a.wires.connections)
    requires Handles(a, input, b) && input.Closing? && StepOf(a, input).Some?
    ensures Shrinks(a.wires, b.wires, GoneOf(a, input), {})
  {
    var step, w, k := StepOf(a, input).value, a.wires, KeyOf(a.wires, input.connection);
    var left := w.(sessions := w.sessions - {input.connection}, connections := w.connections - {k});
    NoneQueued(a.table);
    OneGoes(a.table, step, k);
    ApplyDeregister(a.table, input.now, k.0, k.1);
    hide Core, Drains, V2Presence.NoRemovals, Apply, Deregister, Goes;
    StepSays(a.table, step);
    SettledQuiet(Apply(a.table, step), left, b);
    HungUp(w, b.wires, input.connection);
  }

  lemma HungUp(w: Wires, w': Wires, x: ConnectionId)
    requires Agree(w.sessions, w.connections) && Stands(w, x)
    requires w'.sessions == w.sessions - {x} && w'.connections == w.connections - {KeyOf(w, x)}
    ensures Shrinks(w, w', iset{KeyOf(w, x)}, {})
  {
  }

  lemma RemovingWires(a: Layer, input: Input, b: Layer)
    requires Sound(a.table) && Agree(a.wires.sessions, a.wires.connections)
    requires Handles(a, input, b) && input.Requesting? && input.operation.RemoveV2?
    ensures Shrinks(a.wires, b.wires, GoneOf(a, input), {})
  {
    hide Core, Drains, V2Presence.NoRemovals, Apply, Remove, Closed, PromotionNotices, Agree;
    var step := StepOf(a, input).value;
    var k: Key := (step.room, step.client);
    var done := Remove(a.table, step.ticket, step.room, step.client, step.token);
    NoneQueued(a.table);
    ApplyRemove(a.table, step.ticket, step.room, step.client, step.token);
    StepSays(a.table, step);
    SettledQuiet(Apply(a.table, step), RemoveReply(a.wires, step.ticket, step.room, step.client, done.1), b);
    if done.1.Ok? && done.1.value.Removed? {
      OneGoes(a.table, step, k);
      ClosedShrinks(a.wires, b.wires, k);
    } else {
      assert GoneOf(a, input) == iset{};
      SameShrinks(a.wires, b.wires);
    }
  }

  lemma OneTold(t: Table, step: Step, k: Key)
    requires Told(t, step, k)
    ensures (iset l: Key | Goes(t, step, l)) == iset{k}
  {
    hide LeaveSucceeds;
  }

  lemma NoneTold(t: Table, step: Step)
    requires step.ResultStep? && forall k: Key :: !Told(t, step, k)
    ensures (iset l: Key | Goes(t, step, l)) == iset{}
  {
    hide Told;
  }

  lemma ResultWires(a: Layer, input: Input, b: Layer)
    requires Sound(a.table) && Agree(a.wires.sessions, a.wires.connections)
    requires Handles(a, input, b) && input.Reporting? && input.input.ResultInput?
    ensures Shrinks(a.wires, b.wires, GoneOf(a, input), {})
  {
    hide Core, Drains, V2Presence.NoRemovals, Apply, HandleResult, Agree, Told, Goes, Shrinks, Closed;
    var step, t, answer := StepOf(a, input).value, a.table, input.input;
    ApplyResult2(t, answer.connection, answer.instance, answer.result, answer.now);
    ResultTable(t, answer.connection, answer.instance, answer.result, answer.now);
    NoneQueued(t);
    var acks: Acks :| Core(t, acks, true);
    if k: Key :| Told(t, step, k) {
      OneTold(t, step, k);
      var ticket := ToldSays(t, step, k, acks);
      ToldChanges(t, step, k, ticket);
      ClosingDrain(a.wires, RemovalCompleted(ticket, k.0, k.1, Ok(())), b.wires);
      ClosedShrinks(a.wires, b.wires, k);
    } else {
      NoneTold(t, step);
      QuietResult(t, step);
      if HandleResult(t, answer.connection, answer.instance, answer.result, answer.now).1.Ok? {
        SettledQuiet(Apply(t, step), a.wires, b);
      }
      SameShrinks(a.wires, b.wires);
    }
  }

  /** A result that announces something is handled without an error. */
  lemma ToldChanges(t: Table, step: Step, k: Key, ticket: Ticket)
    requires step.ResultStep? && t.actions == []
    requires Apply(t, step).actions == [RemovalCompleted(ticket, k.0, k.1, Ok(()))]
    requires var done := HandleResult(t, step.connection, step.instance, step.result, step.now);
             Apply(t, step) == done.0 && (done.1.Err? ==> done.0 == t)
    ensures HandleResult(t, step.connection, step.instance, step.result, step.now).1.Ok?
  {
  }

  /** Every input but a registration that succeeds: just the sockets of those who go are forgotten. */
  lemma InputWires(a: Layer, input: Input, b: Layer)
    requires Sound(a.table) && Agree(a.wires.sessions, a.wires.connections) && Handles(a, input, b) && !EntersBy(a, input)
    ensures Shrinks(a.wires, b.wires, GoneOf(a, input), HungOf(a, input))
  {
    hide Sound, Handles, Shrinks, Goes, Enters, Agree, Stands, RegisterRefused, SendRefused, ParseRoomToken;
    if StepOf(a, input).None? {
      StillWires(a, input, b);
    } else if input.Closing? {
      ClosingWires(a, input, b);
    } else if input.Requesting? && input.operation.RemoveV2? {
      RemovingWires(a, input, b);
    } else if input.Reporting? && input.input.ResultInput? {
      ResultWires(a, input, b);
    } else {
      QuietWires(a, input, b);
      SameShrinks(a.wires, b.wires);
      NoneGoes(a.table, StepOf(a, input).value);
    }
  }

  // ---- who speaks for whom ----

  /** The token that the socket of a member has shown, unless the socket is one of the `slipped`. */
  ghost function Spoken(w: Wires, shown: map<ConnectionId, string>, slipped: set<ConnectionId>, k: Key): Option<string> {
    if k in w.connections && w.connections[k] !in slipped && w.connections[k] in shown then Some(shown[w.connections[k]])
    else None
  }

  /** Apart from the `slipped`, sockets and connected members match: each registered socket stands for its member, and
      each connected member has its socket, which has shown the member's own token. */
  ghost predicate Bound(a: Layer, shown: map<ConnectionId, string>, slipped: set<ConnectionId>) {
    && Agree(a.wires.sessions, a.wires.connections)
    && (forall x :: x in slipped ==> x in a.wires.sessions && a.wires.sessions[x].RegisteredV2?)
    && (forall x, k: Key :: IsRegistered(a.wires, x, k) && x !in slipped ==> Leads(a.wires, k, x) && x in shown)
    && (forall k: Key :: Seat(a.table, k) == Spoken(a.wires, shown, slipped, k))
  }

  ghost function ShownAfter(a: Layer, input: Input, shown: map<ConnectionId, string>): map<ConnectionId, string> {
    if input.Registering? && EntersBy(a, input) then shown[input.connection := input.token] else shown
  }

  /** The member that the socket stands for slips away from it. */
  ghost predicate SlipsFrom(a: Layer, input: Input, x: ConnectionId) {
    Stands(a.wires, x) && StepOf(a, input).Some? && Slips(a.table, StepOf(a, input).value, KeyOf(a.wires, x))
  }

  ghost function SlippedAfter(a: Layer, input: Input, b: Layer, slipped: set<ConnectionId>): set<ConnectionId> {
    set x | x in b.wires.sessions && b.wires.sessions[x].RegisteredV2? && (x in slipped || SlipsFrom(a, input, x))
  }

  lemma ShrunkAgrees(w: Wires, w': Wires, gone: iset<Key>, hung: set<ConnectionId>)
    requires Agree(w.sessions, w.connections) && Shrinks(w, w', gone, hung)
    ensures Agree(w'.sessions, w'.connections)
  {
    forall k: Key | k in w'.connections ensures IsRegistered(w', w'.connections[k], k) {
      assert IsRegistered(w, w.connections[k], k) && Stands(w, w.connections[k]);
    }
  }

  lemma ShrunkBound(a: Layer, b: Layer, shown: map<ConnectionId, string>, slipped: set<ConnectionId>, gone: iset<Key>,
                    hung: set<ConnectionId>, slips: iset<Key>, after: set<ConnectionId>)
    requires Bound(a, shown, slipped) && Shrinks(a.wires, b.wires, gone, hung)
    requires forall k: Key :: Seat(b.table, k) == if k in gone || k in slips then None else Seat(a.table, k)
    requires forall x :: x in after <==>
               x in b.wires.sessions && b.wires.sessions[x].RegisteredV2?
               && (x in slipped || (Stands(a.wires, x) && KeyOf(a.wires, x) in slips))
    ensures Bound(b, shown, after)
  {
    hide Seat;
    ShrunkAgrees(a.wires, b.wires, gone, hung);
    forall x, k: Key | IsRegistered(b.wires, x, k) && x !in after ensures Leads(b.wires, k, x) && x in shown {
      assert IsRegistered(a.wires, x, k);
    }
    forall k: Key ensures Seat(b.table, k) == Spoken(b.wires, shown, after, k) {
      if k in a.wires.connections {
        var x := a.wires.connections[k];
        assert IsRegistered(a.wires, x, k) && KeyOf(a.wires, x) == k && Stands(a.wires, x);
        if k in b.wires.connections { assert IsRegistered(b.wires, x, k); }
      }
    }
  }

  lemma SlipsNowhere(t: Table, step: Step, k: Key)
    requires step.RegisterStep?
    ensures !Slips(t, step, k)
  {
  }

  /** A registration that succeeds: its member was not connected, so the socket it gets is the one that counts. */
  lemma EnteredSeats(t: Table, step: Step, k: Key)
    requires Enters(t, step)
    ensures Seat(t, (step.room, step.client)) == None
    ensures Seat(Apply(t, step), k) == if k == (step.room, step.client) then Some(step.token) else Seat(t, k)
  {
    hide QueuedFor;
  }

  lemma EnteredTable(a: Layer, input: Input, b: Layer)
    requires Sound(a.table) && Handles(a, input, b) && Tidy(a, input) && input.Registering? && EntersBy(a, input)
    ensures var step := StepOf(a, input).value;
            var k: Key := (step.room, step.client);
            && step.token == input.token && Seat(a.table, k) == None
            && forall l: Key :: Seat(b.table, l) == if l == k then Some(input.token) else Seat(a.table, l)
  {
    hide Apply, Register, Sound, Handles, ParseRoomToken, RegisterRefused, ProperOrders, IsTame, Enters, Online;
    var step := StepOf(a, input).value;
    TableOf(a, input, b);
    EnteredSeats(a.table, step, (step.room, step.client));
    forall l: Key ensures Seat(b.table, l) == Seat(Apply(a.table, step), l) {
      assert RoomAt(b.table, l.0) == RoomAt(Apply(a.table, step), l.0);
    }
    forall l: Key { EnteredSeats(a.table, step, l); }
  }

  lemma EnteredWires(a: Layer, input: Input, b: Layer)
    requires Handles(a, input, b) && input.Registering? && EntersBy(a, input)
    ensures var step := StepOf(a, input).value;
            && b.wires.sessions == a.wires.sessions[input.connection := RegisteredV2(step.room, step.client)]
            && b.wires.connections == a.wires.connections[(step.room, step.client) := input.connection]
    ensures input.connection in a.wires.sessions ==> a.wires.sessions[input.connection] == Connected
  {
    hide Register, Entered, ParseRoomToken;
    var step := StepOf(a, input).value;
    var done := Register(a.table, step.room, step.client, step.token, step.order);
    EnteredSame(a.wires, input.connection, step.room, step.client, done.1.value);
  }

  lemma EnteredSlips(a: Layer, input: Input, b: Layer, slipped: set<ConnectionId>)
    requires input.Registering? && EntersBy(a, input)
    requires forall x :: x in slipped ==> x in b.wires.sessions && b.wires.sessions[x].RegisteredV2?
    ensures SlippedAfter(a, input, b, slipped) == slipped
  {
    forall x ensures !SlipsFrom(a, input, x) { SlipsNowhere(a.table, StepOf(a, input).value, KeyOf(a.wires, x)); }
    hide Slips, Enters, StepOf;
  }

  lemma EnteredSpoken(w: Wires, w': Wires, shown: map<ConnectionId, string>, slipped: set<ConnectionId>,
                      after: set<ConnectionId>, x: ConnectionId, k: Key, token: string)
    requires Agree(w.sessions, w.connections) && (x in w.sessions ==> w.sessions[x] == Connected) && x !in slipped
    requires w'.sessions == w.sessions[x := RegisteredV2(k.0, k.1)] && w'.connections == w.connections[k := x]
    requires forall y :: y in slipped ==> y in w.sessions && w.sessions[y].RegisteredV2?
    requires forall y, l: Key :: IsRegistered(w, y, l) && y !in slipped ==> Leads(w, l, y) && y in shown
    requires forall y :: y in after <==> y in slipped
    requires Spoken(w, shown, slipped, k) == None
    ensures forall l: Key ::
              Spoken(w', shown[x := token], after, l) == if l == k then Some(token) else Spoken(w, shown, slipped, l)
    ensures forall y, l: Key :: IsRegistered(w', y, l) && y !in after ==> Leads(w', l, y) && y in shown[x := token]
  {
    forall y, l: Key | IsRegistered(w', y, l) && y !in after ensures Leads(w', l, y) && y in shown[x := token] {
      if y != x { assert IsRegistered(w, y, l); }
    }
  }

  /** The socket `x`, which stood for nobody, now stands for the newly connected member `k`. */
  lemma EnteredWhole(a: Layer, b: Layer, shown: map<ConnectionId, string>, slipped: set<ConnectionId>, x: ConnectionId,
                     k: Key, token: string)
    requires Bound(a, shown, slipped)
    requires x in a.wires.sessions ==> a.wires.sessions[x] == Connected
    requires b.wires.sessions == a.wires.sessions[x := RegisteredV2(k.0, k.1)]
    requires b.wires.connections == a.wires.connections[k := x]
    requires Seat(a.table, k) == None
    requires forall l: Key :: Seat(b.table, l) == if l == k then Some(token) else Seat(a.table, l)
    ensures Bound(b, shown[x := token], slipped)
    ensures forall y :: y in slipped ==> y in b.wires.sessions && b.wires.sessions[y].RegisteredV2?
  {
    hide Seat, Spoken, IsRegistered, Leads;
    NobodyElse(a.wires.sessions, a.wires.connections, x, k);
    assert x !in slipped;
    EnteredSpoken(a.wires, b.wires, shown, slipped, slipped, x, k, token);
  }

  lemma EnteredBound(a: Layer, input: Input, b: Layer, shown: map<ConnectionId, string>, slipped: set<ConnectionId>)
    requires Sound(a.table) && Bound(a, shown, slipped) && Handles(a, input, b) && Tidy(a, input)
    requires input.Registering? && EntersBy(a, input)
    ensures Bound(b, ShownAfter(a, input, shown), SlippedAfter(a, input, b, slipped))
  {
    var step := StepOf(a, input).value;
    var k: Key := (step.room, step.client);
    hide Seat, Sound, Tidy, EntersBy, Handles, StepOf, SlippedAfter, Bound;
    EnteredTable(a, input, b);
    EnteredWires(a, input, b);
    EnteredWhole(a, b, shown, slipped, input.connection, k, input.token);
    EnteredSlips(a, input, b, slipped);
  }

  /** Every other input: whoever slips leaves its socket behind. */
  lemma OtherBound(a: Layer, input: Input, b: Layer, shown: map<ConnectionId, string>, slipped: set<ConnectionId>)
    requires Sound(a.table) && Bound(a, shown, slipped) && Handles(a, input, b) && Tidy(a, input) && !EntersBy(a, input)
    ensures Bound(b, shown, SlippedAfter(a, input, b, slipped))
  {
    hide Handles, StepOf, Tidy, EntersBy, Bound, Shrinks, Seat, Sound, Stands;
    assert Agree(a.wires.sessions, a.wires.connections) by { BoundAgrees(a, shown, slipped); }
    InputWires(a, input, b);
    var slips := SlipsOf(a, input);
    forall k: Key { OtherSeats(a, input, b, k); }
    ShrunkBound(a, b, shown, slipped, GoneOf(a, input), HungOf(a, input), slips, SlippedAfter(a, input, b, slipped));
  }

  ghost function SlipsOf(a: Layer, input: Input): iset<Key> {
    match StepOf(a, input)
    case None => iset{}
    case Some(step) => iset k: Key | Slips(a.table, step, k)
  }

  lemma BoundAgrees(a: Layer, shown: map<ConnectionId, string>, slipped: set<ConnectionId>)
    requires Bound(a, shown, slipped)
    ensures Agree(a.wires.sessions, a.wires.connections)
  {
  }

  lemma OtherSeats(a: Layer, input: Input, b: Layer, k: Key)
    requires Sound(a.table) && Handles(a, input, b) && Tidy(a, input) && !EntersBy(a, input)
    ensures Seat(b.table, k) == if k in GoneOf(a, input) || k in SlipsOf(a, input) then None else Seat(a.table, k)
  {
    TableOf(a, input, b);
    hide Handles, StepOf, Apply, Online, Core, Goes, Slips, Enters, ProperOrders, ReachesFailRoom, LeavesJoiner;
    if StepOf(a, input).Some? {
      var acks: Acks :| Core(a.table, acks, true);
      StepSeats(a.table, StepOf(a, input).value, k, acks);
      assert RoomAt(b.table, k.0) == RoomAt(Apply(a.table, StepOf(a, input).value), k.0);
    }
  }

  lemma InputBound(a: Layer, input: Input, b: Layer, shown: map<ConnectionId, string>, slipped: set<ConnectionId>)
    requires Sound(a.table) && Bound(a, shown, slipped) && Handles(a, input, b) && Tidy(a, input)
    ensures Bound(b, ShownAfter(a, input, shown), SlippedAfter(a, input, b, slipped))
  {
    assert EntersBy(a, input) ==> input.Registering?;
    hide Handles, StepOf, Tidy, EntersBy, Bound, Sound, SlippedAfter;
    if EntersBy(a, input) {
      EnteredBound(a, input, b, shown, slipped);
    } else {
      OtherBound(a, input, b, shown, slipped);
    }
  }

  // ---- whole runs of the layer ----

  /** A run of the layer from the start, in an environment that keeps to E1 and E2. */
  ghost predicate Plays(config: Config, layers: seq<Layer>, inputs: seq<Input>) {
    && |layers| == |inputs| + 1
    && layers[0] == Layer(EmptyTable(config.grace, config.dwell), Wires(map[], map[], [], []))
    && forall k :: 0 <= k < |inputs| ==> Handles(layers[k], inputs[k], layers[k + 1]) && Tidy(layers[k], inputs[k])
  }

  /** The token that each socket has registered with. */
  ghost function ShownBy(layers: seq<Layer>, inputs: seq<Input>, k: nat): map<ConnectionId, string>
    requires k <= |inputs| < |layers|
  {
    if k == 0 then map[] else ShownAfter(layers[k - 1], inputs[k - 1], ShownBy(layers, inputs, k - 1))
  }

  /** The registered sockets whose members have slipped away from them. */
  ghost function SlippedBy(layers: seq<Layer>, inputs: seq<Input>, k: nat): set<ConnectionId>
    requires k <= |inputs| < |layers|
  {
    if k == 0 then {} else SlippedAfter(layers[k - 1], inputs[k - 1], layers[k], SlippedBy(layers, inputs, k - 1))
  }

  lemma {:induction false} BoundThroughout(config: Config, layers: seq<Layer>, inputs: seq<Input>, k: nat)
    requires Plays(config, layers, inputs) && k <= |inputs|
    ensures Sound(layers[k].table) && Bound(layers[k], ShownBy(layers, inputs, k), SlippedBy(layers, inputs, k))
    decreases k
  {
    hide Handles, Tidy, Bound, Sound, ShownAfter, SlippedAfter;
    if k == 0 {
      EmptyBound(config);
    } else {
      BoundThroughout(config, layers, inputs, k - 1);
      InputSound(layers[k - 1], inputs[k - 1], layers[k]);
      InputBound(layers[k - 1], inputs[k - 1], layers[k], ShownBy(layers, inputs, k - 1), SlippedBy(layers, inputs, k - 1));
    }
  }

  lemma EmptyBound(config: Config)
    ensures var start := Layer(EmptyTable(config.grace, config.dwell), Wires(map[], map[], [], []));
            Sound(start.table) && Bound(start, map[], {})
  {
    hide Core;
    var acks: Acks := {};
    EmptyCore(config.grace, config.dwell, true);
    assert Core(EmptyTable(config.grace, config.dwell), acks, true);
  }

  /** Token binding: a socket that has registered as a member stands for it, the member is connected, and the token that
      the socket has shown is the member's own, if and only if the member has not slipped away from the socket since. */
  lemma SocketsBound(config: Config, layers: seq<Layer>, inputs: seq<Input>, k: nat, x: ConnectionId, r: RoomId, c: ClientId)
    requires Plays(config, layers, inputs) && k <= |inputs|
    requires x in layers[k].wires.sessions && layers[k].wires.sessions[x] == RegisteredV2(r, c)
    ensures Stands(layers[k].wires, x) && Online(RoomAt(layers[k].table, r), c) <==> x !in SlippedBy(layers, inputs, k)
    ensures x !in SlippedBy(layers, inputs, k) ==>
              && x in ShownBy(layers, inputs, k)
              && layers[k].table.rooms[r].members[c].token == ShownBy(layers, inputs, k)[x]
  {
    hide Handles, Tidy, Sound, ShownBy, SlippedBy;
    var key: Key := (r, c);
    var shown, slipped := ShownBy(layers, inputs, k), SlippedBy(layers, inputs, k);
    BoundThroughout(config, layers, inputs, k);
    assert IsRegistered(layers[k].wires, x, key);
    assert Seat(layers[k].table, key) == Spoken(layers[k].wires, shown, slipped, key);
  }

  /** So a frame that the authority is handed in a member's name comes from the one socket that stands for the member,
      which has shown the member's own token, if and only if the member has not slipped away from the sender. */
  lemma FramesBound(config: Config, layers: seq<Layer>, inputs: seq<Input>, k: nat)
    requires Plays(config, layers, inputs) && k < |inputs| && inputs[k].Sending? && StepOf(layers[k], inputs[k]).Some?
    ensures var a, x := layers[k], inputs[k].connection;
            var step := StepOf(a, inputs[k]).value;
            && (Stands(a.wires, x) && Online(RoomAt(a.table, step.room), step.client)
                <==> x !in SlippedBy(layers, inputs, k))
            && (x !in SlippedBy(layers, inputs, k) ==>
                  && a.wires.connections[(step.room, step.client)] == x && x in ShownBy(layers, inputs, k)
                  && a.table.rooms[step.room].members[step.client].token == ShownBy(layers, inputs, k)[x])
  {
    var step := StepOf(layers[k], inputs[k]).value;
    SocketsBound(config, layers, inputs, k, inputs[k].connection, step.room, step.client);
    hide Plays, ShownBy, SlippedBy, Online;
  }
}
