/** A worker that comes back: each of its rooms is synchronised once, and what it had not answered
    for the room is sent again after that, and only then. */
module V2Reconnect {
  import opened Wrappers
  import opened Collections
  import opened Sfu
  import opened V2State
  import opened V2Steps
  import opened V2Moves
  import opened V2RoomSteps
  import opened V2Commands

  /** `p` plans the synchronisation of room `r` on worker `i`. */
  ghost predicate Plans(p: PendingCommand, i: InstanceId, r: RoomId) {
    p.SyncPending? && p.instance == i && p.room == r
  }

  ghost predicate NoPlan(t: Table, i: InstanceId, r: RoomId) {
    forall q :: q in t.pending ==> !Plans(t.pending[q], i, r)
  }

  /** `q` is the one command in flight that plans the synchronisation of `r` on `i`. */
  ghost predicate OnlyPlan(t: Table, i: InstanceId, r: RoomId, q: RequestId) {
    && q in t.pending && Plans(t.pending[q], i, r)
    && forall p :: p in t.pending && Plans(t.pending[p], i, r) ==> p == q
  }

  // ---- what a replay contains ----

  lemma ReplayCons(t: Table, i: InstanceId, r: RoomId, commands: seq<RequestId>)
    requires commands != []
    ensures Replay(t, i, r, commands)
            == (if Replayable(t, i, r, commands[0]) then [t.unacked[commands[0]]] else [])
               + Replay(t, i, r, commands[1..])
  {
  }

  /** A replay has the listed commands of the worker for the room, and nothing else. */
  lemma {:induction false} ReplayHas(t: Table, i: InstanceId, r: RoomId, commands: seq<RequestId>)
    ensures forall command :: command in Replay(t, i, r, commands) <==>
              exists q :: q in commands && Replayable(t, i, r, q) && t.unacked[q] == command
  {
    if commands != [] {
      var q0, rest := commands[0], commands[1..];
      ReplayHas(t, i, r, rest);
      ReplayCons(t, i, r, commands);
      var head := if Replayable(t, i, r, q0) then [t.unacked[q0]] else [];
      hide Replayable, Replay;
      assert forall q :: q in commands <==> q == q0 || q in rest;
      forall command
        ensures command in Replay(t, i, r, commands) <==>
                  exists q :: q in commands && Replayable(t, i, r, q) && t.unacked[q] == command
      {
        assert command in Replay(t, i, r, commands) <==> command in head || command in Replay(t, i, r, rest);
        if q :| q in rest && Replayable(t, i, r, q) && t.unacked[q] == command { assert q in commands; }
      }
    }
  }

  /** No command is replayed twice. */
  lemma {:induction false} ReplayOnce(t: Table, i: InstanceId, r: RoomId, commands: seq<RequestId>)
    requires LedgerShape(t) && NoDuplicates(commands)
    ensures NoDuplicates(Replay(t, i, r, commands))
  {
    if commands != [] {
      var rest := commands[1..];
      ReplayOnce(t, i, r, rest);
      ReplayHas(t, i, r, rest);
      assert commands[0] !in rest;
      assert forall command :: command in Replay(t, i, r, rest) ==> command.id in rest;
    }
  }

  // ---- planning ----

  /** A SyncRoom for another room changes neither the plan nor the replay of this one. */
  lemma {:induction false} ReplayStable(t: Table, i: InstanceId, r: RoomId, commands: seq<RequestId>, t1: Table)
    requires forall q :: q in commands ==>
               && (q in t1.owners <==> q in t.owners) && (q in t.owners ==> t1.owners[q] == t.owners[q])
               && (q in t1.pending <==> q in t.pending) && (q in t.pending ==> t1.pending[q] == t.pending[q])
               && (q in t1.unacked <==> q in t.unacked) && (q in t.unacked ==> t1.unacked[q] == t.unacked[q])
    ensures Replay(t1, i, r, commands) == Replay(t, i, r, commands)
  {
    if commands != [] {
      assert commands[0] in commands;
      ReplayStable(t, i, r, commands[1..], t1);
    }
  }

  lemma ResyncRoomPlans(t: Table, i: InstanceId, connection: ConnectionId, s: RoomId, commands: seq<RequestId>, r: RoomId)
    requires t.nextRequest !in t.pending && forall q :: q in commands ==> q < t.nextRequest
    ensures var t1 := ResyncRoom(t, i, connection, s, commands);
            && t1.rooms == t.rooms && t.nextRequest <= t1.nextRequest
            && Replay(t1, i, r, commands) == Replay(t, i, r, commands)
            && (s != r ==> (NoPlan(t, i, r) ==> NoPlan(t1, i, r)))
            && (s != r ==> forall q :: OnlyPlan(t, i, r, q) ==>
                  OnlyPlan(t1, i, r, q) && t1.pending[q] == t.pending[q])
            && (s == r && NoPlan(t, i, r) && r in t.rooms ==>
                  && OnlyPlan(t1, i, r, t.nextRequest)
                  && t1.pending[t.nextRequest]
                     == SyncPending(i, r, t.rooms[r].assignmentEpoch, Replay(t, i, r, commands)))
  {
    hide Replay, Projection;
    var t1 := ResyncRoom(t, i, connection, s, commands);
    ReplayStable(t, i, r, commands, t1);
  }

  lemma {:induction false} PlanKept(t: Table, i: InstanceId, connection: ConnectionId, rooms: seq<RoomId>,
                                    commands: seq<RequestId>, r: RoomId, q: RequestId)
    requires CommandsOk(t) && r !in rooms && OnlyPlan(t, i, r, q) && forall k :: k in commands ==> k < t.nextRequest
    ensures var t' := ResyncRooms(t, i, connection, rooms, commands);
            OnlyPlan(t', i, r, q) && t'.pending[q] == t.pending[q]
    decreases |rooms|
  {
    hide CommandsOk, EmitsFresh, ResyncRoom, Replay, OnlyPlan;
    if rooms != [] {
      var t1 := ResyncRoom(t, i, connection, rooms[0], commands);
      Unused(t);
      assert rooms[0] in rooms;
      ResyncRoomPlans(t, i, connection, rooms[0], commands, r);
      ResyncRoomLog(t, i, connection, rooms[0], commands);
      PlanKept(t1, i, connection, rooms[1..], commands, r, q);
    }
  }

  lemma Unused(t: Table)
    requires CommandsOk(t)
    ensures t.nextRequest !in t.pending
    ensures forall q :: q in t.owners ==> q < t.nextRequest
  {
    forall q | q in t.pending ensures q < t.nextRequest {
      assert IsIssued(t, t.unacked[q]);
    }
  }

  /** Each listed room that exists gets one SyncRoom, which will replay what `Replay` collects. */
  lemma {:induction false} ResyncPlans(t: Table, i: InstanceId, connection: ConnectionId, rooms: seq<RoomId>,
                                       commands: seq<RequestId>, r: RoomId) returns (q: RequestId)
    requires CommandsOk(t) && NoDuplicates(rooms) && r in rooms && r in t.rooms && NoPlan(t, i, r)
    requires forall k :: k in commands ==> k < t.nextRequest
    ensures var t' := ResyncRooms(t, i, connection, rooms, commands);
            && OnlyPlan(t', i, r, q)
            && t'.pending[q] == SyncPending(i, r, t.rooms[r].assignmentEpoch, Replay(t, i, r, commands))
    decreases |rooms|
  {
    hide CommandsOk, EmitsFresh, ResyncRoom, Replay, OnlyPlan, NoPlan;
    var s, rest := rooms[0], rooms[1..];
    var t1 := ResyncRoom(t, i, connection, s, commands);
    Unused(t);
    ResyncRoomPlans(t, i, connection, s, commands, r);
    ResyncRoomLog(t, i, connection, s, commands);
    if s == r {
      q := t.nextRequest;
      assert r !in rest;
      PlanKept(t1, i, connection, rest, commands, r, q);
    } else {
      assert r in rest;
      q := ResyncPlans(t1, i, connection, rest, commands, r);
    }
  }

  lemma {:induction false} NoPlanKept(t: Table, i: InstanceId, connection: ConnectionId, rooms: seq<RoomId>,
                                      commands: seq<RequestId>, r: RoomId)
    requires CommandsOk(t) && NoPlan(t, i, r) && (r !in rooms || r !in t.rooms)
    ensures NoPlan(ResyncRooms(t, i, connection, rooms, commands), i, r)
    decreases |rooms|
  {
    hide CommandsOk, EmitsFresh, Replay;
    if rooms != [] {
      var t1 := ResyncRoom(t, i, connection, rooms[0], commands);
      assert rooms[0] in rooms;
      ResyncRoomLog(t, i, connection, rooms[0], commands);
      assert t1.rooms == t.rooms;
      NoPlanKept(t1, i, connection, rooms[1..], commands, r);
    }
  }

  // ---- a worker registers ----

  lemma SessionCommands(t: Table, connection: ConnectionId, i: InstanceId, request: RequestId, capacity: Capacity, r: RoomId)
    ensures var session := OpenSession(t, connection, i, request, capacity);
            && session.rooms == t.rooms && session.nextRequest == t.nextRequest && NoPlan(session, i, r)
            && (forall q :: Replayable(session, i, r, q) <==> Replayable(t, i, r, q))
            && (forall q :: Replayable(t, i, r, q) ==>
                  q in session.owners && q in session.unacked && q in t.unacked && session.unacked[q] == t.unacked[q])
  {
    hide ConnectedWorker;
  }

  /** The commands of worker `i` for room `r` that are still unanswered, other than SyncRooms. */
  ghost function Unanswered(t: Table, i: InstanceId, r: RoomId): set<Command> {
    set q | q in t.owners && Replayable(t, i, r, q) :: t.unacked[q]
  }

  /** A worker that registers gets one SyncRoom for each room assigned to it, and each holds exactly
      the worker's unanswered commands for the room, each once, as they were sent. */
  lemma RegistrationPlans(t: Table, connection: ConnectionId, i: InstanceId, request: RequestId, capacity: Capacity,
                          rooms: seq<RoomId>, commands: seq<RequestId>, r: RoomId) returns (q: RequestId)
    requires CommandsOk(t) && !InvalidRegistration(i, request, capacity)
    requires ProperOrders(t, WorkerStep(connection, i, request, capacity, rooms, commands))
    requires i in t.workers && r in t.workers[i].rooms && r in t.rooms
    ensures var t' := RegisterWorker(t, connection, i, request, capacity, rooms, commands);
            && OnlyPlan(t', i, r, q) && t'.pending[q].assignmentEpoch == t.rooms[r].assignmentEpoch
            && NoDuplicates(t'.pending[q].replay)
            && (set command | command in t'.pending[q].replay) == Unanswered(t, i, r)
  {
    var session := OpenSession(t, connection, i, request, capacity);
    RegisterWorkerLog(t, connection, i, request, capacity, rooms, commands);
    SessionCommands(t, connection, i, request, capacity, r);
    assert session.workers[i].rooms == t.workers[i].rooms;
    hide OpenSession, EmitsFresh;
    Unused(session);
    assert LedgerShape(session);
    hide CommandsOk;
    q := ResyncPlans(session, i, connection, rooms, commands, r);
    ReplayHas(session, i, r, commands);
    ReplayOnce(session, i, r, commands);
    hide Replay, ResyncRooms, OnlyPlan, Replayable, Unanswered;
    ReplaysUnanswered(t, session, i, r, commands, Replay(session, i, r, commands));
  }

  lemma ReplaysUnanswered(t: Table, session: Table, i: InstanceId, r: RoomId, commands: seq<RequestId>, replay: seq<Command>)
    requires forall q :: Replayable(session, i, r, q) <==> Replayable(t, i, r, q)
    requires forall q :: Replayable(t, i, r, q) ==>
               q in session.owners && q in session.unacked && q in t.unacked && session.unacked[q] == t.unacked[q]
    requires forall q :: q in commands <==> q in session.owners
    requires forall command :: command in replay <==>
               exists k :: k in commands && Replayable(session, i, r, k) && session.unacked[k] == command
    ensures (set command | command in replay) == Unanswered(t, i, r)
  {
    hide Replayable;
    forall command ensures command in replay <==> command in Unanswered(t, i, r) {
      if command in replay {
        var k :| k in commands && Replayable(session, i, r, k) && session.unacked[k] == command;
        OwnedReplay(t, i, r, k);
      }
      if command in Unanswered(t, i, r) {
        var k :| k in t.owners && Replayable(t, i, r, k) && t.unacked[k] == command;
        assert k in commands && Replayable(session, i, r, k) && session.unacked[k] == command;
      }
    }
  }

  lemma OwnedReplay(t: Table, i: InstanceId, r: RoomId, q: RequestId)
    requires Replayable(t, i, r, q)
    ensures q in t.owners && q in t.unacked
  {
  }

  /** A synchronisation planned on worker `i` will send the command again. */
  ghost predicate AwaitsReplay(t: Table, i: InstanceId, command: Command) {
    exists q :: q in t.pending && Plans(t.pending[q], i, CommandRoom(command)) && command in t.pending[q].replay
  }

  /** After a registration an unanswered command waits in a replay exactly when its room is assigned to the worker.
      The Leaves that clean up after an abort or a downgrade are for a room that no longer is: they are sent again only
      if the room has been assigned to that worker once more. */
  lemma ReplayedExactly(t: Table, connection: ConnectionId, i: InstanceId, request: RequestId, capacity: Capacity,
                        rooms: seq<RoomId>, commands: seq<RequestId>, k: RequestId)
    requires CommandsOk(t) && !InvalidRegistration(i, request, capacity)
    requires ProperOrders(t, WorkerStep(connection, i, request, capacity, rooms, commands))
    requires i in t.workers && k in t.owners && t.owners[k] == i && !t.pending[k].SyncPending?
    ensures var t' := RegisterWorker(t, connection, i, request, capacity, rooms, commands);
            var r := CommandRoom(t.unacked[k]);
            AwaitsReplay(t', i, t.unacked[k]) <==> r in t.workers[i].rooms && r in t.rooms
  {
    var r := CommandRoom(t.unacked[k]);
    if r in t.workers[i].rooms && r in t.rooms {
      assert Replayable(t, i, r, k);
      assert t.unacked[k] in Unanswered(t, i, r);
      hide CommandsOk, RegisterWorker;
      var q := RegistrationPlans(t, connection, i, request, capacity, rooms, commands, r);
    } else {
      NeverReplayed(t, connection, i, request, capacity, rooms, commands, r);
    }
  }

  /** The admission brings a third client to a P2P room, and there is a worker to relay it. */
  ghost predicate BeginsUpgrade(t: Table, admission: Step) {
    && admission.AdmitStep? && admission.room in t.rooms && t.rooms[admission.room].mode == P2p
    && |t.rooms[admission.room].members| >= MAX_P2P_MEMBERS && admission.client !in t.rooms[admission.room].members
    && SelectWorker(t, 3).Some?
  }

  /** An upgrade that puts a room back on worker `i` puts what is in flight to `i` for the room, cleanup Leaves of an
      earlier assignment among it, back into the replays of `i`. */
  lemma ReassignedReplays(t: Table, admission: Step, registration: Step, k: RequestId)
    requires CommandsOk(t) && BeginsUpgrade(t, admission) && registration.WorkerStep?
    requires SelectWorker(t, 3) == Some(registration.instance)
    requires k in t.owners && t.owners[k] == registration.instance && !t.pending[k].SyncPending?
    requires CommandRoom(t.unacked[k]) == admission.room
    requires !InvalidRegistration(registration.instance, registration.request, registration.capacity)
    requires ProperOrders(Apply(t, admission), registration)
    ensures AwaitsReplay(Apply(Apply(t, admission), registration), registration.instance, t.unacked[k])
  {
    hide CommandsOk, EmitsFresh, NoPlans, Apply, RegisterWorker, AwaitsReplay;
    StepLog(t, admission);
    UpgradeKeeps(t, admission, k);
    RegistrationReplays(Apply(t, admission), registration, k);
  }

  lemma RegistrationReplays(t: Table, step: Step, k: RequestId)
    requires CommandsOk(t) && ProperOrders(t, step)
    requires step.WorkerStep? && !InvalidRegistration(step.instance, step.request, step.capacity)
    requires step.instance in t.workers && k in t.owners && t.owners[k] == step.instance && !t.pending[k].SyncPending?
    ensures var r := CommandRoom(t.unacked[k]);
            AwaitsReplay(Apply(t, step), step.instance, t.unacked[k]) <==> r in t.workers[step.instance].rooms && r in t.rooms
  {
    hide CommandsOk, RegisterWorker, AwaitsReplay;
    ReplayedExactly(t, step.connection, step.instance, step.request, step.capacity, step.rooms, step.commands, k);
  }

  ghost predicate StillInFlight(t: Table, t1: Table, k: RequestId) {
    && k in t.owners && k in t.unacked && k in t.pending && k in t1.owners && k in t1.unacked && k in t1.pending
    && t1.owners[k] == t.owners[k] && t1.unacked[k] == t.unacked[k] && t1.pending[k] == t.pending[k]
  }

  ghost predicate IsHosted(t: Table, i: InstanceId, r: RoomId) {
    r in t.rooms && i in t.workers && r in t.workers[i].rooms
  }

  /** An admission that begins an upgrade assigns the room, and takes nothing out of flight. */
  lemma UpgradeKeeps(t: Table, admission: Step, k: RequestId)
    requires CommandsOk(t) && BeginsUpgrade(t, admission) && k in t.owners
    ensures StillInFlight(t, Apply(t, admission), k)
    ensures IsHosted(Apply(t, admission), SelectWorker(t, 3).value, admission.room)
  {
    Unused(t);
    UpgradeBegins(t, admission);
    hide CommandsOk, StartUpgrade, SelectWorker, Apply, LedgerShape;
    StartKeeps(t, admission, SelectWorker(t, 3).value, k);
  }

  lemma UpgradeBegins(t: Table, admission: Step)
    requires BeginsUpgrade(t, admission)
    ensures SelectWorker(t, 3).value in t.workers
    ensures Apply(t, admission)
            == StartUpgrade(t, admission.ticket, admission.now, admission.room, admission.client, admission.token,
                            SelectWorker(t, 3).value).0
  {
    hide StartUpgrade, Selectable, LessLoaded;
  }

  lemma StartKeeps(t: Table, admission: Step, i: InstanceId, k: RequestId)
    requires admission.AdmitStep? && admission.room in t.rooms && i in t.workers
    requires k in t.owners && k in t.unacked && k in t.pending && k < t.nextRequest
    ensures var t1 := StartUpgrade(t, admission.ticket, admission.now, admission.room, admission.client, admission.token, i).0;
            StillInFlight(t, t1, k) && IsHosted(t1, i, admission.room)
  {
    hide UpgradingRoom, FreshLifecycles;
    var begun := BeginUpgrade(t, admission.ticket, admission.now, admission.room, admission.client, admission.token, i);
    assert SameCommands(t, begun);
  }

  lemma NeverReplayed(t: Table, connection: ConnectionId, i: InstanceId, request: RequestId, capacity: Capacity,
                      rooms: seq<RoomId>, commands: seq<RequestId>, r: RoomId)
    requires CommandsOk(t) && !InvalidRegistration(i, request, capacity)
    requires ProperOrders(t, WorkerStep(connection, i, request, capacity, rooms, commands))
    requires i in t.workers && !(r in t.workers[i].rooms && r in t.rooms)
    ensures var t' := RegisterWorker(t, connection, i, request, capacity, rooms, commands);
            forall q :: q in t'.pending ==> !Plans(t'.pending[q], i, r)
  {
    var session := OpenSession(t, connection, i, request, capacity);
    RegisterWorkerLog(t, connection, i, request, capacity, rooms, commands);
    SessionCommands(t, connection, i, request, capacity, r);
    assert session.workers[i].rooms == t.workers[i].rooms;
    NoPlanKept(session, i, connection, rooms, commands, r);
    hide CommandsOk, OpenSession, ResyncRooms;
  }

  // ---- the replay ----

  /** The commands of a replay, as they go out. */
  ghost function Sent(connection: ConnectionId, commands: seq<Command>): seq<Action> {
    if commands == [] then [] else [SfuOut(CommandOut(connection, commands[0]))] + Sent(connection, commands[1..])
  }

  lemma {:induction false} PushCommandsSent(t: Table, connection: ConnectionId, commands: seq<Command>)
    ensures PushCommands(t, connection, commands).actions == t.actions + Sent(connection, commands)
    decreases |commands|
  {
    if commands != [] {
      var t1 := Push(t, SfuOut(CommandOut(connection, commands[0])));
      PushCommandsSent(t1, connection, commands[1..]);
      assert t.actions + [SfuOut(CommandOut(connection, commands[0]))] + Sent(connection, commands[1..])
          == t.actions + Sent(connection, commands);
    }
  }

  /** The matching RoomSynced sends the whole replay, in order and unchanged, and nothing else. */
  lemma SyncReplays(t: Table, connection: ConnectionId, i: InstanceId, result: CommandResult, now: Instant)
    requires i in t.workers && t.workers[i].connection == Some(connection)
    requires result.id in t.pending && t.pending[result.id].SyncPending? && t.pending[result.id].instance == i
    requires Synced(result, t.pending[result.id].room, t.pending[result.id].assignmentEpoch)
    ensures var t' := HandleResult(t, connection, i, result, now).0;
            && t'.actions == t.actions + Sent(connection, t.pending[result.id].replay)
            && t'.rooms == t.rooms && t'.workers == t.workers
            && t'.unacked == t.unacked - {result.id}
  {
    hide PushCommands;
    var t1 := Forget(t, {result.id});
    PushCommandsSent(t1, connection, t.pending[result.id].replay);
    PushCommandsKeeps(t1, connection, t.pending[result.id].replay);
  }

  /** A step sends commands of its own, with new ids; only the matching RoomSynced sends commands again, and these
      are of the room it is about, and not in flight to another worker. */
  lemma NothingResent(t: Table, step: Step, k: nat)
    requires CommandsOk(t) && !step.PollStep?
    requires |t.actions| <= k < |Apply(t, step).actions| && IsCommand(Apply(t, step).actions[k])
    ensures var command := Apply(t, step).actions[k].output.command;
            if ReplaysNow(t, step) then
              var p := t.pending[step.result.id];
              command in p.replay && CommandRoom(command) == p.room
              && (command.id in t.owners ==> t.owners[command.id] == p.instance)
            else command.id !in t.issued
  {
    hide Apply;
    StepLog(t, step);
    if ReplaysNow(t, step) {
      ReplaySends(t, step, k);
      assert ReplayOk(t, t.pending[step.result.id]);
    }
  }

  lemma ReplaySends(t: Table, step: Step, k: nat)
    requires CommandsOk(t) && ReplaysNow(t, step)
    requires |t.actions| <= k < |Apply(t, step).actions| && IsCommand(Apply(t, step).actions[k])
    ensures Apply(t, step).actions[k].output.command in t.pending[step.result.id].replay
  {
    hide CommandsOk, EmitsFresh, NoPlans, SyncResult;
    if step.instance in t.workers && t.workers[step.instance].connection == Some(step.connection) {
      SyncLog(t, step.connection, step.instance, step.result, step.now);
    }
  }

  // ---- where plans come from ----

  /** The command is in flight to worker `i`, for room `r`, and is not a SyncRoom. */
  ghost predicate InFlight(t: Table, command: Command, i: InstanceId, r: RoomId) {
    && command.id in t.unacked && t.unacked[command.id] == command
    && command.id in t.owners && t.owners[command.id] == i
    && CommandRoom(command) == r && !command.kind.SyncCommand?
  }

  /** The plan was made by worker `i` registering at `t`: it replays commands in flight to `i` then, for its room. */
  ghost predicate PlannedAt(t: Table, p: PendingCommand, i: InstanceId)
    requires p.SyncPending?
  {
    && p.instance == i && p.room in t.rooms && p.assignmentEpoch == t.rooms[p.room].assignmentEpoch
    && forall command :: command in p.replay ==> InFlight(t, command, i, p.room)
  }

  lemma {:induction false} ReplayInFlight(t: Table, i: InstanceId, r: RoomId, commands: seq<RequestId>)
    requires CommandsOk(t)
    ensures forall command :: command in Replay(t, i, r, commands) ==> InFlight(t, command, i, r)
  {
    if commands != [] { ReplayInFlight(t, i, r, commands[1..]); }
  }

  /** Nothing in flight but SyncRooms is new. */
  ghost predicate OnlySyncs(t: Table, t': Table) {
    && t'.rooms == t.rooms
    && forall command, i, r :: InFlight(t', command, i, r) ==> InFlight(t, command, i, r)
  }

  lemma ResyncRoomOnlySyncs(t: Table, i: InstanceId, connection: ConnectionId, r: RoomId, commands: seq<RequestId>)
    ensures OnlySyncs(t, ResyncRoom(t, i, connection, r, commands))
  {
    hide Replay, Projection;
  }

  lemma {:induction false} ResyncPlanned(t: Table, i: InstanceId, connection: ConnectionId, rooms: seq<RoomId>,
                                         commands: seq<RequestId>, q: RequestId)
    requires CommandsOk(t)
    requires var t' := ResyncRooms(t, i, connection, rooms, commands); q in t'.pending && t'.pending[q].SyncPending?
    ensures var p := ResyncRooms(t, i, connection, rooms, commands).pending[q];
            (q in t.pending && t.pending[q] == p) || (t.nextRequest <= q && PlannedAt(t, p, i))
    decreases |rooms|
  {
    if rooms != [] {
      var r := rooms[0];
      var t1 := ResyncRoom(t, i, connection, r, commands);
      ResyncRoomLog(t, i, connection, r, commands);
      ResyncRoomOnlySyncs(t, i, connection, r, commands);
      ResyncPlanned(t1, i, connection, rooms[1..], commands, q);
      ReplayInFlight(t, i, r, commands);
      hide CommandsOk, EmitsFresh, Replay, ResyncRooms, InFlight;
    }
  }

  lemma SessionOnlySyncs(t: Table, connection: ConnectionId, i: InstanceId, request: RequestId, capacity: Capacity)
    ensures var session := OpenSession(t, connection, i, request, capacity);
            && OnlySyncs(t, session) && session.nextRequest == t.nextRequest
            && forall q :: q in session.pending ==> q in t.pending && session.pending[q] == t.pending[q]
  {
    hide ConnectedWorker;
  }

  /** A plan in flight after a step was there before, unchanged, or is made by the worker that registers. */
  lemma StepPlans(t: Table, step: Step, q: RequestId)
    requires CommandsOk(t) && q in Apply(t, step).pending && Apply(t, step).pending[q].SyncPending?
    ensures var p := Apply(t, step).pending[q];
            || (q in t.pending && t.pending[q] == p)
            || (step.WorkerStep? && t.nextRequest <= q && PlannedAt(t, p, step.instance))
  {
    if step.WorkerStep? && !InvalidRegistration(step.instance, step.request, step.capacity) {
      var session := OpenSession(t, step.connection, step.instance, step.request, step.capacity);
      SessionLog(t, step.connection, step.instance, step.request, step.capacity);
      SessionOnlySyncs(t, step.connection, step.instance, step.request, step.capacity);
      ResyncPlanned(session, step.instance, step.connection, step.rooms, step.commands, q);
      hide CommandsOk, OpenSession, ResyncRooms, InFlight;
    } else {
      StepLog(t, step);
      hide CommandsOk, EmitsFresh, ResyncRooms, OpenSession;
    }
  }
}
