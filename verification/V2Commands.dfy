/** The ledger of worker commands, along every run: the three maps describe the same commands,
    and nothing but a fresh command, or a replay after the matching RoomSynced, is ever sent. */
module V2Commands {
  import opened Wrappers
  import opened Collections
  import opened Sfu
  import opened V2State
  import opened V2Steps
  import opened V2RoomSteps

  /** The three command maps describe the same set of commands in flight. */
  ghost predicate LedgerShape(t: Table) {
    && t.pending.Keys == t.unacked.Keys == t.owners.Keys
    && (forall q :: q in t.unacked ==> t.unacked[q].id == q)
  }

  ghost predicate IsIssued(t: Table, command: Command) {
    command.id in t.issued && t.issued[command.id] == command
  }

  ghost predicate HistoryShape(t: Table) {
    && (forall q :: q in t.issued ==> t.issued[q].id == q && q < t.nextRequest)
    && (forall q :: q in t.unacked ==> IsIssued(t, t.unacked[q]))
  }

  /** A plan replays commands for its own room, and none that is in flight to another worker. */
  ghost predicate ReplayOk(t: Table, p: PendingCommand)
    requires p.SyncPending?
  {
    forall command :: command in p.replay ==>
      && IsIssued(t, command) && !command.kind.SyncCommand? && CommandRoom(command) == p.room
      && (command.id in t.owners ==> t.owners[command.id] == p.instance)
  }

  ghost predicate ReplaysOk(t: Table) {
    forall q :: q in t.pending && t.pending[q].SyncPending? ==> ReplayOk(t, t.pending[q])
  }

  /** What is noted about a command in flight is what the command says. */
  ghost predicate Matches(p: PendingCommand, kind: CommandKind) {
    match p
    case SyncPending(_, r, epoch, _) => kind.SyncCommand? && kind.sync.room == r && kind.sync.assignmentEpoch == epoch
    case UpgradeJoin(_, join) => kind == JoinCommand(join)
    case SfuJoin(_, join) => kind == JoinCommand(join)
    case SfuLeave(_, r, c, lifecycle, epoch) =>
      kind.LeaveCommand? && kind.leave == LeaveMember(r, c, lifecycle, epoch, kind.leave.reason)
    case SignalPending => kind.SignalCommand?
    case CleanupPending => kind.LeaveCommand?
  }

  ghost predicate NotesMatch(t: Table) {
    forall q :: q in t.pending && q in t.unacked ==> Matches(t.pending[q], t.unacked[q].kind)
  }

  ghost predicate OwnedBy(p: PendingCommand, i: InstanceId) {
    p.SyncPending? || p.UpgradeJoin? || p.SfuJoin? || p.SfuLeave? ==> p.instance == i
  }

  ghost predicate OwnersOk(t: Table) {
    forall q :: q in t.pending && q in t.owners ==> OwnedBy(t.pending[q], t.owners[q])
  }

  ghost predicate IsCommand(action: Action) {
    action.SfuOut? && action.output.CommandOut?
  }

  ghost predicate QueueOk(t: Table) {
    forall a :: a in t.actions && IsCommand(a) ==> IsIssued(t, a.output.command)
  }

  ghost predicate CommandsOk(t: Table) {
    LedgerShape(t) && HistoryShape(t) && ReplaysOk(t) && NotesMatch(t) && OwnersOk(t) && QueueOk(t)
  }

  /** `t'` continues the history of `t`, and every command it has queued since is a new one. */
  ghost predicate EmitsFresh(t: Table, t': Table) {
    && t.nextRequest <= t'.nextRequest
    && t.actions <= t'.actions
    && (forall q :: q in t.issued ==> q in t'.issued && t'.issued[q] == t.issued[q])
    && (forall q :: q in t'.owners ==> (q in t.owners && t'.owners[q] == t.owners[q]) || t.nextRequest <= q)
    && (forall k :: |t.actions| <= k < |t'.actions| && IsCommand(t'.actions[k]) ==>
          t.nextRequest <= t'.actions[k].output.command.id)
  }

  /** `t'` only adds to the history of `t`, and gives no old request id to a new command. */
  ghost predicate Continues(t: Table, t': Table) {
    && t.nextRequest <= t'.nextRequest
    && (forall q :: q in t.issued ==> q in t'.issued && t'.issued[q] == t.issued[q])
    && (forall q :: q in t'.owners ==> q in t.owners || t.nextRequest <= q)
  }

  /** No replay has been planned since `t`, and no plan has changed. */
  ghost predicate NoPlans(t: Table, t': Table) {
    forall q :: q in t'.pending && t'.pending[q].SyncPending? ==> q in t.pending && t'.pending[q] == t.pending[q]
  }

  lemma EmitsTransitive(t0: Table, t1: Table, t2: Table)
    requires EmitsFresh(t0, t1) && EmitsFresh(t1, t2)
    ensures EmitsFresh(t0, t2)
    ensures NoPlans(t0, t1) && NoPlans(t1, t2) ==> NoPlans(t0, t2)
  {
  }

  // ---- the primitive changes ----

  lemma IssueEmits(t: Table, i: InstanceId, connection: ConnectionId, kind: CommandKind, p: PendingCommand)
    requires HistoryShape(t)
    ensures EmitsFresh(t, IssueCommand(t, i, connection, kind, p))
    ensures !p.SyncPending? ==> NoPlans(t, IssueCommand(t, i, connection, kind, p))
  {
  }

  lemma IssueReplays(t: Table, i: InstanceId, connection: ConnectionId, kind: CommandKind, p: PendingCommand)
    requires HistoryShape(t) && ReplaysOk(t) && (p.SyncPending? ==> ReplayOk(t, p))
    ensures ReplaysOk(IssueCommand(t, i, connection, kind, p))
  {
    var t' := IssueCommand(t, i, connection, kind, p);
    assert forall command :: IsIssued(t, command) ==> IsIssued(t', command);
    forall k | k in t'.pending && t'.pending[k].SyncPending? ensures ReplayOk(t', t'.pending[k]) {
      if k != t.nextRequest { assert ReplayOk(t, t.pending[k]); }
    }
  }

  lemma IssueShape(t: Table, i: InstanceId, connection: ConnectionId, kind: CommandKind, p: PendingCommand)
    requires LedgerShape(t) && HistoryShape(t)
    ensures LedgerShape(IssueCommand(t, i, connection, kind, p)) && HistoryShape(IssueCommand(t, i, connection, kind, p))
  {
    assert t.nextRequest !in t.issued;
  }

  lemma IssueMarks(t: Table, i: InstanceId, connection: ConnectionId, kind: CommandKind, p: PendingCommand)
    requires NotesMatch(t) && OwnersOk(t) && Matches(p, kind) && OwnedBy(p, i)
    requires LedgerShape(t)
    ensures NotesMatch(IssueCommand(t, i, connection, kind, p)) && OwnersOk(IssueCommand(t, i, connection, kind, p))
  {
  }

  lemma IssueQueues(t: Table, i: InstanceId, connection: ConnectionId, kind: CommandKind, p: PendingCommand)
    requires HistoryShape(t) && QueueOk(t)
    ensures QueueOk(IssueCommand(t, i, connection, kind, p))
  {
    assert t.nextRequest !in t.issued;
  }

  lemma IssueLog(t: Table, i: InstanceId, connection: ConnectionId, kind: CommandKind, p: PendingCommand)
    requires CommandsOk(t)
    requires Matches(p, kind) && OwnedBy(p, i)
    requires p.SyncPending? ==> ReplayOk(t, p)
    ensures CommandsOk(IssueCommand(t, i, connection, kind, p))
    ensures EmitsFresh(t, IssueCommand(t, i, connection, kind, p))
    ensures !p.SyncPending? ==> NoPlans(t, IssueCommand(t, i, connection, kind, p))
    ensures t.owners.Keys <= IssueCommand(t, i, connection, kind, p).owners.Keys
  {
    assert t.owners.Keys <= IssueCommand(t, i, connection, kind, p).owners.Keys;
    hide EmitsFresh, NoPlans, ReplaysOk, ReplayOk, LedgerShape, HistoryShape, NotesMatch, OwnersOk, QueueOk, IssueCommand;
    IssueEmits(t, i, connection, kind, p);
    IssueReplays(t, i, connection, kind, p);
    IssueShape(t, i, connection, kind, p);
    IssueMarks(t, i, connection, kind, p);
    IssueQueues(t, i, connection, kind, p);
  }

  lemma ForgetLog(t: Table, qs: set<RequestId>)
    requires CommandsOk(t)
    ensures CommandsOk(Forget(t, qs)) && EmitsFresh(t, Forget(t, qs)) && NoPlans(t, Forget(t, qs))
  {
    var t' := Forget(t, qs);
    assert forall command :: IsIssued(t, command) ==> IsIssued(t', command);
    assert ReplaysOk(t') by {
      forall k | k in t'.pending && t'.pending[k].SyncPending? ensures ReplayOk(t', t'.pending[k]) {
        assert ReplayOk(t, t.pending[k]);
      }
    }
  }

  ghost predicate SameCommands(t: Table, t': Table) {
    && t'.pending == t.pending && t'.unacked == t.unacked && t'.owners == t.owners
    && t'.issued == t.issued && t'.nextRequest == t.nextRequest
  }

  /** Changes to rooms and workers, and notices that are not commands. */
  ghost predicate Quiet(t: Table, t': Table) {
    && SameCommands(t, t')
    && t.actions <= t'.actions
    && forall k :: |t.actions| <= k < |t'.actions| ==> !IsCommand(t'.actions[k])
  }

  lemma QuietLog(t: Table, t': Table)
    requires CommandsOk(t) && Quiet(t, t')
    ensures CommandsOk(t') && EmitsFresh(t, t') && NoPlans(t, t')
  {
    assert forall command :: IsIssued(t, command) == IsIssued(t', command);
    assert ReplaysOk(t') by {
      forall k | k in t'.pending && t'.pending[k].SyncPending? ensures ReplayOk(t', t'.pending[k]) {
        assert ReplayOk(t, t.pending[k]);
      }
    }
    assert QueueOk(t');
  }

  // ---- the operations ----

  ghost predicate Logged(t: Table, t': Table) {
    CommandsOk(t') && EmitsFresh(t, t') && NoPlans(t, t')
  }

  /** So far logged, with nothing taken out of flight. */
  ghost predicate Added(t: Table, t': Table) {
    Logged(t, t') && t.owners.Keys <= t'.owners.Keys
  }

  lemma IssueNextLog(t: Table, r: RoomId)
    requires CommandsOk(t)
    ensures IssueNextUpgradeJoin(t, r).Ok? ==> Added(t, IssueNextUpgradeJoin(t, r).value)
  {
    hide CommandsOk, EmitsFresh, NoPlans;
    if IssueNextUpgradeJoin(t, r).Ok? {
      var room := t.rooms[r];
      var c := room.upgrade.value.ordered[room.upgrade.value.next];
      var join := JoinMember(r, c, room.members[c].lifecycle, room.assignmentEpoch);
      var i := room.instance.value;
      IssueLog(t, i, Connection(t, i).value, JoinCommand(join), UpgradeJoin(i, join));
    }
  }

  lemma AdmitToSfuLog(t: Table, ticket: Ticket, now: Instant, r: RoomId, c: ClientId, token: string)
    requires CommandsOk(t) && r in t.rooms
    ensures Added(t, AdmitToSfu(t, ticket, now, r, c, token).0)
  {
    hide CommandsOk, EmitsFresh, NoPlans;
    QuietLog(t, t);
    var room := t.rooms[r];
    if RoomConnection(t, room).Some? {
      var lifecycle := NextLifecycle(t, r, c);
      var room' := WithMember(room, c, NewMember(now, t.grace, token, false, lifecycle))
                   .(pendingJoin := Some(PendingJoin(ticket, c)), downgradeDeadline := None);
      var t1 := PutRoom(DrawLifecycle(t, r, c), r, room');
      QuietLog(t, t1);
      var join := JoinMember(r, c, lifecycle, room.assignmentEpoch);
      var i := room.instance.value;
      IssueLog(t1, i, Connection(t, i).value, JoinCommand(join), SfuJoin(i, join));
      EmitsTransitive(t, t1, IssueCommand(t1, i, Connection(t, i).value, JoinCommand(join), SfuJoin(i, join)));
    }
  }

  lemma AdmitLog(t: Table, ticket: Ticket, now: Instant, r: RoomId, c: ClientId, token: string)
    requires CommandsOk(t)
    ensures Added(t, Admit(t, ticket, now, r, c, token).0)
  {
    hide CommandsOk, EmitsFresh, NoPlans, UpgradingRoom, Selectable, LessLoaded, IssueNextUpgradeJoin, FreshLifecycles,
         AdmitToSfu;
    QuietLog(t, t);
    if r !in t.rooms {
      QuietLog(t, CreateRoom(t, now, r, c, token).0);
    } else {
      var room := t.rooms[r];
      QuietLog(t, AdmitToP2p(t, now, r, c, token).0);
      if room.mode == Sfu {
        AdmitToSfuLog(t, ticket, now, r, c, token);
      } else if SelectWorker(t, 3).Some? {
        var begun := BeginUpgrade(t, ticket, now, r, c, token, SelectWorker(t, 3).value);
        QuietLog(t, begun);
        IssueNextLog(begun, r);
        if IssueNextUpgradeJoin(begun, r).Ok? {
          EmitsTransitive(t, begun, IssueNextUpgradeJoin(begun, r).value);
        }
      }
    }
  }

  lemma IssueSfuLeaveLog(t: Table, r: RoomId, c: ClientId, ticket: Option<Ticket>, reason: LeaveReason)
    requires CommandsOk(t)
    ensures IssueSfuLeave(t, r, c, ticket, reason).Some? ==> Added(t, IssueSfuLeave(t, r, c, ticket, reason).value)
  {
    hide CommandsOk, EmitsFresh, NoPlans;
    if IssueSfuLeave(t, r, c, ticket, reason).Some? {
      var room := t.rooms[r];
      var t1 := PutRoom(t, r, room.(pendingLeave := Some(PendingLeave(ticket, c))));
      QuietLog(t, t1);
      var i := room.instance.value;
      var lifecycle := room.members[c].lifecycle;
      var kind := LeaveCommand(LeaveMember(r, c, lifecycle, room.assignmentEpoch, reason));
      var p := SfuLeave(i, r, c, lifecycle, room.assignmentEpoch);
      IssueLog(t1, i, Connection(t, i).value, kind, p);
      EmitsTransitive(t, t1, IssueCommand(t1, i, Connection(t, i).value, kind, p));
    }
  }

  lemma LeaveOrWaitLog(t: Table, now: Instant, r: RoomId, c: ClientId)
    requires CommandsOk(t)
    ensures Added(t, LeaveOrWait(t, now, r, c)) && Added(t, SetDeadline(t, r, c, now + t.grace))
  {
    hide CommandsOk, EmitsFresh, NoPlans, IssueSfuLeave;
    IssueSfuLeaveLog(t, r, c, None, Disconnected);
    QuietLog(t, SetDeadline(t, r, c, now + t.grace));
  }

  lemma DeregisterLog(t: Table, now: Instant, r: RoomId, c: ClientId)
    requires CommandsOk(t)
    ensures Added(t, Deregister(t, now, r, c))
  {
    hide CommandsOk, EmitsFresh, NoPlans, LeaveOrWait, SetDeadline;
    QuietLog(t, t);
    if r in t.rooms && c in t.rooms[r].members {
      var t1 := PutRoom(t, r, WithMember(t.rooms[r], c, t.rooms[r].members[c].(registered := false)));
      QuietLog(t, t1);
      LeaveOrWaitLog(t1, now, r, c);
      EmitsTransitive(t, t1, LeaveOrWait(t1, now, r, c));
      EmitsTransitive(t, t1, SetDeadline(t1, r, c, now + t.grace));
    }
  }

  lemma SendLog(t: Table, r: RoomId, c: ClientId, epoch: nat, message: string, order: seq<ClientId>)
    requires CommandsOk(t)
    ensures Added(t, Send(t, r, c, epoch, message, order).0)
  {
    hide CommandsOk, EmitsFresh, NoPlans;
    QuietLog(t, t);
    if r in t.rooms && c in t.rooms[r].members {
      var room := t.rooms[r];
      QuietLog(t, Enqueue(t, r, c, message).0);
      if RoomConnection(t, room).Some? {
        var i := room.instance.value;
        var signal := Signal(r, c, room.members[c].lifecycle, room.assignmentEpoch, message, None);
        IssueLog(t, i, Connection(t, i).value, SignalCommand(signal), SignalPending);
      }
    }
  }

  lemma RemoveLog(t: Table, ticket: Ticket, r: RoomId, c: ClientId, token: string)
    requires CommandsOk(t)
    ensures Added(t, Remove(t, ticket, r, c, token).0)
  {
    hide CommandsOk, EmitsFresh, NoPlans, IssueSfuLeave, Survivors;
    QuietLog(t, t);
    IssueSfuLeaveLog(t, r, c, Some(ticket), User);
    if r in t.rooms {
      var rest := WithoutMember(t.rooms[r], c);
      QuietLog(t, PutOrReap(t, r, rest));
      QuietLog(t, PutOrReap(t, r, Survivors(rest)));
    }
  }

  // ---- workers ----

  lemma {:induction false} ReplayIssued(t: Table, i: InstanceId, r: RoomId, commands: seq<RequestId>)
    requires CommandsOk(t)
    ensures forall command :: command in Replay(t, i, r, commands) ==>
              && IsIssued(t, command) && !command.kind.SyncCommand? && CommandRoom(command) == r
              && command.id in t.owners && t.owners[command.id] == i
  {
    if commands != [] {
      ReplayIssued(t, i, r, commands[1..]);
      assert Replayable(t, i, r, commands[0]) ==> IsIssued(t, t.unacked[commands[0]]);
    }
  }

  lemma ResyncRoomLog(t: Table, i: InstanceId, connection: ConnectionId, r: RoomId, commands: seq<RequestId>)
    requires CommandsOk(t)
    ensures CommandsOk(ResyncRoom(t, i, connection, r, commands))
    ensures EmitsFresh(t, ResyncRoom(t, i, connection, r, commands))
    ensures t.owners.Keys <= ResyncRoom(t, i, connection, r, commands).owners.Keys
  {
    hide CommandsOk, EmitsFresh, NoPlans, Replay, Projection;
    QuietLog(t, t);
    if r in t.rooms {
      ReplayIssued(t, i, r, commands);
      var epoch := t.rooms[r].assignmentEpoch;
      IssueLog(t, i, connection, SyncCommand(SyncRoom(r, epoch, Projection(t.rooms[r]))),
               SyncPending(i, r, epoch, Replay(t, i, r, commands)));
    }
  }

  lemma {:induction false} ResyncLog(t: Table, i: InstanceId, connection: ConnectionId, rooms: seq<RoomId>,
                                     commands: seq<RequestId>)
    requires CommandsOk(t)
    ensures CommandsOk(ResyncRooms(t, i, connection, rooms, commands))
    ensures EmitsFresh(t, ResyncRooms(t, i, connection, rooms, commands))
    ensures t.owners.Keys <= ResyncRooms(t, i, connection, rooms, commands).owners.Keys
    decreases |rooms|
  {
    hide CommandsOk, EmitsFresh, NoPlans, ResyncRoom;
    if rooms == [] {
      QuietLog(t, t);
    } else {
      var t1 := ResyncRoom(t, i, connection, rooms[0], commands);
      ResyncRoomLog(t, i, connection, rooms[0], commands);
      ResyncLog(t1, i, connection, rooms[1..], commands);
      EmitsTransitive(t, t1, ResyncRooms(t1, i, connection, rooms[1..], commands));
    }
  }

  lemma SessionLog(t: Table, connection: ConnectionId, i: InstanceId, request: RequestId, capacity: Capacity)
    requires CommandsOk(t)
    ensures Logged(t, OpenSession(t, connection, i, request, capacity))
  {
    hide CommandsOk, EmitsFresh, NoPlans, ConnectedWorker;
    var previous := Connection(t, i);
    var closed := if previous.Some? && previous.value != connection then [SfuOut(CloseWorker(previous.value))] else [];
    var registered := [SfuOut(Registered(connection, request, HEALTH_INTERVAL_MS, i in t.workers))];
    var t1 := t.(workers := t.workers[i := ConnectedWorker(t, i, connection, capacity)],
                 actions := t.actions + closed + registered);
    QuietLog(t, t1);
    ForgetLog(t1, Superseded(t, i));
    var session := OpenSession(t, connection, i, request, capacity);
    assert session == Forget(t1, Superseded(t, i));
    EmitsTransitive(t, t1, session);
  }

  lemma RegisterWorkerLog(t: Table, connection: ConnectionId, i: InstanceId, request: RequestId,
                          capacity: Capacity, rooms: seq<RoomId>, commands: seq<RequestId>)
    requires CommandsOk(t)
    ensures CommandsOk(RegisterWorker(t, connection, i, request, capacity, rooms, commands))
    ensures EmitsFresh(t, RegisterWorker(t, connection, i, request, capacity, rooms, commands))
    ensures Logged(t, OpenSession(t, connection, i, request, capacity))
  {
    hide CommandsOk, EmitsFresh, NoPlans, ResyncRooms, OpenSession;
    var refusal := [SfuOut(RegistrationError(connection, request, WorkerError("INVALID_REQUEST", false)))];
    QuietLog(t, t.(actions := t.actions + refusal));
    var session := OpenSession(t, connection, i, request, capacity);
    SessionLog(t, connection, i, request, capacity);
    ResyncLog(session, i, connection, rooms, commands);
    EmitsTransitive(t, session, ResyncRooms(session, i, connection, rooms, commands));
  }

  lemma EventQuiet(t: Table, connection: ConnectionId, i: InstanceId, event: Event)
    ensures Quiet(t, HandleEvent(t, connection, i, event).0)
  {
    hide Remember, FreshEvent;
    if i in t.workers && t.workers[i].connection == Some(connection) && event.id != 0
       && event.id !in t.workers[i].seen {
      FreshEventQuiet(PutWorker(t, i, Remember(t.workers[i], event.id)), connection, i, event);
    }
  }

  lemma FreshEventQuiet(t: Table, connection: ConnectionId, i: InstanceId, event: Event)
    requires i in t.workers
    ensures Quiet(t, FreshEvent(t, connection, i, event).0)
  {
    match event.kind {
      case HealthEvent(health) =>
      case SignalEvent(signal) => SignalQuiet(t, connection, i, event.id, signal);
        hide RelaySignal;
      case FailureEvent(error, failed) =>
        FailQuiet(t, failed, error.reason);
        hide FailNamedRoom;
    }
  }

  lemma FailQuiet(t: Table, r: Option<RoomId>, reason: string)
    ensures Quiet(t, FailNamedRoom(t, r, reason))
  {
  }

  lemma SignalQuiet(t: Table, connection: ConnectionId, i: InstanceId, id: nat, signal: Signal)
    ensures Quiet(t, RelaySignal(t, connection, i, id, signal).0)
  {
    hide Quiet;
    QuietNotice(t, t, []);
    var relayed := [Deliver(Delivery(signal.room, signal.client, signal.message)), SfuOut(EventAck(connection, id))];
    QuietNotice(t, PushAll(t, relayed), relayed);
  }

  lemma CleanupLog(t: Table, r: RoomId, i: InstanceId, clients: seq<ClientId>, epoch: nat)
    requires CommandsOk(t)
    ensures Added(t, Cleanup(t, r, i, clients, epoch).0)
  {
    hide CommandsOk, EmitsFresh, NoPlans, Cleanup, IssueCommand;
    QuietLog(t, t);
    forall t0: Table, connection, leave: LeaveMember | Added(t, t0)
      ensures Added(t, IssueCommand(t0, i, connection, LeaveCommand(leave), CleanupPending))
    {
      IssueLog(t0, i, connection, LeaveCommand(leave), CleanupPending);
      EmitsTransitive(t, t0, IssueCommand(t0, i, connection, LeaveCommand(leave), CleanupPending));
    }
    CleanupKeeps(t0 => Added(t, t0), t, r, i, clients, epoch);
  }

  lemma AbortLog(t: Table, r: RoomId, reason: string)
    requires CommandsOk(t)
    ensures Added(t, AbortUpgrade(t, r, reason).0)
  {
    hide CommandsOk, EmitsFresh, NoPlans, Cleanup, WithoutMember;
    QuietLog(t, t);
    if r in t.rooms && t.rooms[r].upgrade.Some? {
      var room := t.rooms[r];
      var upgrade := room.upgrade.value;
      var t1 := PutRoom(t, r, WithoutMember(room, upgrade.joining).(upgrade := None, mode := P2p, instance := None));
      QuietLog(t, t1);
      if room.instance.Some? {
        var i := room.instance.value;
        var t2 := Unassign(t1, r, i, 3);
        QuietLog(t, t2);
        CleanupLog(t2, r, i, upgrade.joined, room.assignmentEpoch);
        var t3 := Cleanup(t2, r, i, upgrade.joined, room.assignmentEpoch).0;
        EmitsTransitive(t, t2, t3);
        var notice := [AdmissionCompleted(upgrade.ticket, Err(if reason == "" then "WORKER_UNAVAILABLE" else reason))];
        QuietLog(t3, t3.(actions := t3.actions + notice));
        EmitsTransitive(t, t3, t3.(actions := t3.actions + notice));
      }
    }
  }

  lemma CommitQuiet(t: Table, r: RoomId)
    ensures Quiet(t, CommitUpgrade(t, r).0)
  {
    hide CommittedRoom, Quiet;
    QuietNotice(t, t, []);
    if r in t.rooms && t.rooms[r].upgrade.Some? {
      var room, upgrade := t.rooms[r], t.rooms[r].upgrade.value;
      QuietNotice(t, PutRoom(t, r, CommittedRoom(room)), []);
      if upgrade.joining in room.members {
        var epoch := CommittedRoom(room).signalEpoch;
        var upgraded := Upgraded(r, epoch, room.members.Keys - {upgrade.joining});
        var completed :=
          AdmissionCompleted(upgrade.ticket, Ok(Admission(Sfu, epoch, room.members[upgrade.joining].token, None)));
        assert t.actions + [upgraded, completed] == t.actions + [upgraded] + [completed];
        QuietNotice(t, CommitUpgrade(t, r).0, [upgraded, completed]);
      }
    }
  }

  lemma UpgradeJoinLog(t: Table, i: InstanceId, p: PendingCommand, result: CommandResult)
    requires CommandsOk(t) && p.UpgradeJoin?
    ensures Added(t, UpgradeJoinResult(t, i, p, result).0)
  {
    hide CommandsOk, EmitsFresh, NoPlans, AbortUpgrade, IssueNextUpgradeJoin, CommitUpgrade, AdvancedRoom;
    var r := p.join.room;
    AbortLog(t, r, ErrorReason(result));
    QuietLog(t, t);
    if r in t.rooms && t.rooms[r].upgrade.Some? {
      var t1 := PutRoom(t, r, AdvancedRoom(t.rooms[r], p.join.client));
      QuietLog(t, t1);
      IssueNextLog(t1, r);
      if IssueNextUpgradeJoin(t1, r).Ok? { EmitsTransitive(t, t1, IssueNextUpgradeJoin(t1, r).value); }
      var t2 := CommitUpgrade(t1, r).0;
      CommitQuiet(t1, r);
      QuietLog(t1, t2);
      EmitsTransitive(t, t1, t2);
    }
  }

  lemma SfuJoinQuiet(t: Table, i: InstanceId, p: PendingCommand, result: CommandResult)
    requires p.SfuJoin?
    ensures Quiet(t, SfuJoinResult(t, i, p, result).0)
  {
    hide WithoutMember, Joined, ErrorReason, CreditWorker;
    var r := p.join.room;
    if r in t.rooms && t.rooms[r].pendingJoin.Some? && p.instance == i && Joined(result, p.join) {
      CreditQuiet(PutRoom(t, r, t.rooms[r].(pendingJoin := None)), i);
    }
  }

  lemma CreditQuiet(t: Table, i: InstanceId)
    ensures SameCommands(t, CreditWorker(t, i)) && CreditWorker(t, i).actions == t.actions
  {
  }

  lemma SfuLeaveQuiet(t: Table, i: InstanceId, p: PendingCommand, result: CommandResult, now: Instant)
    requires p.SfuLeave?
    ensures Quiet(t, SfuLeaveResult(t, i, p, result, now).0)
  {
    hide Armed, DebitWorker, WithoutMember, Left, ErrorReason, PutOrReap, IsCommand, RemovalNotice, Quiet;
    QuietNotice(t, t, []);
    if p.room in t.rooms && t.rooms[p.room].pendingLeave.Some? {
      var room := t.rooms[p.room];
      var leave := room.pendingLeave.value;
      if p.instance == i && Left(result, p) {
        var rest := WithoutMember(room.(pendingLeave := None), p.client);
        DebitCommands(t, i, p.room, rest.members == map[]);
        var notice := RemovalNotice(leave, p.room, p.client, Ok(()));
        var t1 := PushAll(DebitWorker(t, i, p.room, rest.members == map[]), notice);
        ReapCommands(t1, p.room, Armed(t.dwell, rest, now));
        NoticeQuiet(leave, p.room, p.client, Ok(()));
        QuietNotice(t, SfuLeaveResult(t, i, p, result, now).0, notice);
      } else {
        NoticeQuiet(leave, p.room, p.client, Err(ErrorReason(result)));
        QuietNotice(t, SfuLeaveResult(t, i, p, result, now).0,
                    RemovalNotice(leave, p.room, p.client, Err(ErrorReason(result))));
      }
    }
  }

  lemma NoticeQuiet(leave: PendingLeave, r: RoomId, c: ClientId, outcome: Result<(), string>)
    ensures forall action :: action in RemovalNotice(leave, r, c, outcome) ==> !IsCommand(action)
  {
  }

  lemma QuietNotice(t: Table, t': Table, more: seq<Action>)
    requires SameCommands(t, t') && t'.actions == t.actions + more
    requires forall action :: action in more ==> !IsCommand(action)
    ensures Quiet(t, t')
  {
    forall k | |t.actions| <= k < |t'.actions| ensures !IsCommand(t'.actions[k]) {
      assert t'.actions[k] == more[k - |t.actions|];
    }
  }

  lemma ReapCommands(t: Table, r: RoomId, room: Room)
    ensures SameCommands(t, PutOrReap(t, r, room)) && PutOrReap(t, r, room).actions == t.actions
  {
  }

  lemma DebitCommands(t: Table, i: InstanceId, r: RoomId, empty: bool)
    ensures SameCommands(t, DebitWorker(t, i, r, empty)) && DebitWorker(t, i, r, empty).actions == t.actions
  {
  }

  /** A matching RoomSynced is the one step that sends commands again. */
  lemma {:induction false} PushCommandsLog(t: Table, connection: ConnectionId, commands: seq<Command>)
    requires CommandsOk(t) && forall command :: command in commands ==> IsIssued(t, command)
    ensures var t' := PushCommands(t, connection, commands);
            && CommandsOk(t') && SameCommands(t, t')
            && t.actions <= t'.actions
            && forall k :: |t.actions| <= k < |t'.actions| ==>
                 t'.actions[k].SfuOut? && t'.actions[k].output.CommandOut?
                 && t'.actions[k].output.command in commands
    decreases |commands|
  {
    if commands != [] {
      var t1 := Push(t, SfuOut(CommandOut(connection, commands[0])));
      assert commands[0] in commands;
      assert IsIssued(t1, commands[0]);
      assert forall command :: IsIssued(t, command) == IsIssued(t1, command);
      assert ReplaysOk(t1) by {
        forall k | k in t1.pending && t1.pending[k].SyncPending? ensures ReplayOk(t1, t1.pending[k]) {
          assert ReplayOk(t, t.pending[k]);
        }
      }
      PushCommandsLog(t1, connection, commands[1..]);
    }
  }

  ghost predicate ReplaysNow(t: Table, step: Step) {
    && step.ResultStep? && step.result.id in t.pending
    && var p := t.pending[step.result.id];
       p.SyncPending? && p.instance == step.instance && Synced(step.result, p.room, p.assignmentEpoch)
  }

  lemma SyncLog(t: Table, connection: ConnectionId, i: InstanceId, result: CommandResult, now: Instant)
    requires CommandsOk(t) && i in t.workers && t.workers[i].connection == Some(connection)
    requires result.id in t.pending && t.pending[result.id].SyncPending?
    ensures var t' := HandleResult(t, connection, i, result, now).0;
            && CommandsOk(t') && NoPlans(t, t')
            && (ReplaysNow(t, ResultStep(connection, i, result, now)) ==>
                  && t.actions <= t'.actions && t'.nextRequest == t.nextRequest && t'.issued == t.issued
                  && forall k :: |t.actions| <= k < |t'.actions| && IsCommand(t'.actions[k]) ==>
                       t'.actions[k].output.command in t.pending[result.id].replay)
            && (!ReplaysNow(t, ResultStep(connection, i, result, now)) ==> EmitsFresh(t, t'))
  {
    hide CommandsOk, EmitsFresh, PushCommands, FailRoom, ReplayOk;
    var p := t.pending[result.id];
    var t1 := Forget(t, {result.id});
    ForgetLog(t, {result.id});
    SyncForget(t, result.id);
    if ReplaysNow(t, ResultStep(connection, i, result, now)) {
      hide Forget;
      PushCommandsLog(t1, connection, p.replay);
    } else {
      var failed := FailRoom(t1, p.room, "WORKER_UNAVAILABLE");
      FailRoomQuiet(t1, p.room, "WORKER_UNAVAILABLE");
      QuietLog(t1, failed);
      hide Quiet, NoPlans;
      EmitsTransitive(t, t1, failed);
    }
  }

  lemma SyncForget(t: Table, q: RequestId)
    requires CommandsOk(t) && q in t.pending && t.pending[q].SyncPending?
    ensures forall command :: command in t.pending[q].replay ==> IsIssued(Forget(t, {q}), command)
    ensures var t1 := Forget(t, {q});
            t1.actions == t.actions && t1.nextRequest == t.nextRequest && t1.issued == t.issued
  {
    assert ReplayOk(t, t.pending[q]);
    assert forall command :: IsIssued(t, command) ==> IsIssued(Forget(t, {q}), command);
  }

  lemma FailRoomQuiet(t: Table, r: RoomId, reason: string)
    ensures Quiet(t, FailRoom(t, r, reason))
  {
  }

  lemma ResultLog(t: Table, connection: ConnectionId, i: InstanceId, result: CommandResult, now: Instant)
    requires CommandsOk(t)
    requires !(i in t.workers && t.workers[i].connection == Some(connection)
               && result.id in t.pending && t.pending[result.id].SyncPending?)
    ensures Logged(t, HandleResult(t, connection, i, result, now).0)
  {
    hide CommandsOk, EmitsFresh, NoPlans, UpgradeJoinResult, SfuJoinResult, SfuLeaveResult, SyncResult;
    QuietLog(t, t);
    if result.id in t.pending {
      var p := t.pending[result.id];
      var t1 := Forget(t, {result.id});
      ForgetLog(t, {result.id});
      match p {
        case SyncPending(_, _, _, _) =>
        case UpgradeJoin(_, _) =>
          UpgradeJoinLog(t1, i, p, result);
          EmitsTransitive(t, t1, UpgradeJoinResult(t1, i, p, result).0);
        case SfuJoin(_, _) =>
          SfuJoinQuiet(t1, i, p, result);
          QuietLog(t1, SfuJoinResult(t1, i, p, result).0);
          EmitsTransitive(t, t1, SfuJoinResult(t1, i, p, result).0);
        case SfuLeave(_, _, _, _, _) =>
          SfuLeaveQuiet(t1, i, p, result, now);
          QuietLog(t1, SfuLeaveResult(t1, i, p, result, now).0);
          EmitsTransitive(t, t1, SfuLeaveResult(t1, i, p, result, now).0);
        case SignalPending =>
        case CleanupPending =>
      }
    }
  }

  // ---- timeouts ----

  lemma ExpireRoomLog(t: Table, r: RoomId)
    requires CommandsOk(t)
    ensures Added(t, ExpireRoom(t, r))
  {
    hide CommandsOk, EmitsFresh, NoPlans, AbortUpgrade, ExpiredRoom;
    AbortLog(t, r, "WORKER_UNAVAILABLE");
    QuietLog(t, t);
    if r in t.rooms && t.rooms[r].mode != Upgrading {
      QuietLog(t, ExpireRoom(t, r));
    }
  }

  lemma {:induction false} ExpireRoomsLog(t: Table, rooms: seq<RoomId>)
    requires CommandsOk(t)
    ensures Added(t, ExpireRooms(t, rooms))
    decreases |rooms|
  {
    hide CommandsOk, EmitsFresh, NoPlans, ExpireRoom;
    if rooms == [] {
      QuietLog(t, t);
    } else {
      var t1 := ExpireRoom(t, rooms[0]);
      ExpireRoomLog(t, rooms[0]);
      ExpireRoomsLog(t1, rooms[1..]);
      EmitsTransitive(t, t1, ExpireRooms(t1, rooms[1..]));
    }
  }

  lemma ExpireWorkerLog(t: Table, i: InstanceId, rooms: seq<RoomId>)
    requires CommandsOk(t)
    ensures Logged(t, ExpireWorker(t, i, rooms))
  {
    hide CommandsOk, EmitsFresh, NoPlans, ExpireRooms;
    ExpireRoomsLog(t, rooms);
    var t1 := ExpireRooms(t, rooms);
    var t2 := Forget(t1, CommandsOf(t1, i));
    ForgetLog(t1, CommandsOf(t1, i));
    EmitsTransitive(t, t1, t2);
    var t3 := ExpireWorker(t, i, rooms);
    QuietLog(t2, t3);
    EmitsTransitive(t, t2, t3);
  }

  lemma {:induction false} ExpireWorkersLog(t: Table, workers: seq<InstanceId>, hosted: map<InstanceId, seq<RoomId>>)
    requires CommandsOk(t)
    ensures Logged(t, ExpireWorkers(t, workers, hosted))
    decreases |workers|
  {
    hide CommandsOk, EmitsFresh, NoPlans, ExpireWorker;
    if workers == [] {
      QuietLog(t, t);
    } else {
      var i := workers[0];
      var rooms := Listing(hosted, i);
      var t1 := ExpireWorker(t, i, rooms);
      ExpireWorkerLog(t, i, rooms);
      ExpireWorkersLog(t1, workers[1..], hosted);
      EmitsTransitive(t, t1, ExpireWorkers(t1, workers[1..], hosted));
    }
  }

  lemma DowngradeLog(t: Table, r: RoomId, order: seq<ClientId>)
    requires CommandsOk(t) && r in t.rooms && t.rooms[r].members != map[]
    ensures Added(t, CommitDowngrade(t, r, order))
  {
    hide CommandsOk, EmitsFresh, NoPlans, Cleanup, DowngradedRoom;
    var room := t.rooms[r];
    var t1 := PutRoom(t, r, DowngradedRoom(room));
    QuietLog(t, t1);
    var t2 := ReleaseWorker(t1, r, room, order);
    if room.instance.Some? {
      var i := room.instance.value;
      var released := Unassign(t1, r, i, |room.members|);
      QuietLog(t, released);
      CleanupLog(released, r, i, order, room.assignmentEpoch);
      EmitsTransitive(t, released, Cleanup(released, r, i, order, room.assignmentEpoch).0);
    }
    assert Added(t, t2);
    var notice := [Downgraded(r, DowngradedRoom(room).signalEpoch, Least(room.members.Keys), SortedSeq(room.members.Keys))];
    QuietLog(t2, t2.(actions := t2.actions + notice));
    EmitsTransitive(t, t2, t2.(actions := t2.actions + notice));
  }

  lemma SweepRoomLog(t: Table, now: Instant, r: RoomId, order: seq<ClientId>)
    requires CommandsOk(t)
    ensures Added(t, SweepRoom(t, now, r, order).0)
  {
    hide CommandsOk, EmitsFresh, NoPlans, CommitDowngrade, LeaveOrWait, Survivors, DueMembers, FirstDue;
    QuietLog(t, t);
    if r in t.rooms {
      var room := t.rooms[r];
      if DowngradeEligible(room) { DowngradeLog(t, r, order); }
      QuietLog(t, PutRoom(t, r, room.(downgradeDeadline := None)));
      var c := FirstDue(room.members, order, now);
      if c.Some? { LeaveOrWaitLog(t, now, r, c.value); }
      SweepP2pQuiet(t, now, r);
      QuietLog(t, SweepP2p(t, now, r).0);
      hide SweepP2p, DowngradeEligible;
    }
  }

  lemma SweepP2pQuiet(t: Table, now: Instant, r: RoomId)
    requires r in t.rooms
    ensures Quiet(t, SweepP2p(t, now, r).0)
  {
    hide Survivors, DueMembers, PutOrReap, Quiet;
    var room := t.rooms[r];
    var kept := room.(members := room.members - DueMembers(room, now));
    PutOrReapQuiet(t, r, kept);
    PutOrReapQuiet(t, r, Survivors(kept));
  }

  lemma PutOrReapQuiet(t: Table, r: RoomId, room: Room)
    ensures Quiet(t, PutOrReap(t, r, room))
  {
  }

  lemma {:induction false} SweepRoomsLog(t: Table, now: Instant, rooms: seq<RoomId>, members: map<RoomId, seq<ClientId>>)
    requires CommandsOk(t)
    ensures Added(t, SweepRooms(t, now, rooms, members).0)
    decreases |rooms|
  {
    hide CommandsOk, EmitsFresh, NoPlans, SweepRoom;
    if rooms == [] {
      QuietLog(t, t);
    } else {
      var order := Listing(members, rooms[0]);
      var t1 := SweepRoom(t, now, rooms[0], order).0;
      SweepRoomLog(t, now, rooms[0], order);
      SweepRoomsLog(t1, now, rooms[1..], members);
      EmitsTransitive(t, t1, SweepRooms(t1, now, rooms[1..], members).0);
    }
  }

  lemma TimeoutLog(t: Table, now: Instant, s: Schedule)
    requires CommandsOk(t)
    ensures Logged(t, HandleTimeout(t, now, s).0)
  {
    hide CommandsOk, EmitsFresh, NoPlans, ExpireWorkers, SweepRooms;
    var mid := ExpireWorkers(t, s.workers, s.hosted);
    ExpireWorkersLog(t, s.workers, s.hosted);
    SweepRoomsLog(mid, now, s.rooms, s.members);
    EmitsTransitive(t, mid, SweepRooms(mid, now, s.rooms, s.members).0);
  }

  // ---- all steps ----

  /** Every step keeps the ledger, and every step but a matching RoomSynced sends new commands only. */
  lemma StepLog(t: Table, step: Step)
    requires CommandsOk(t)
    ensures CommandsOk(Apply(t, step))
    ensures !step.PollStep? && !ReplaysNow(t, step) ==> EmitsFresh(t, Apply(t, step))
    ensures !step.WorkerStep? ==> NoPlans(t, Apply(t, step))
  {
    hide CommandsOk, EmitsFresh, NoPlans, Admit, Deregister, Send, Remove, HandleResult, HandleEvent, HandleTimeout,
         RegisterWorker, RegisteredMembers, PollAction, Register, LoseWorker;
    match step {
      case AdmitStep(ticket, now, r, c, token) => AdmitLog(t, ticket, now, r, c, token);
      case RegisterStep(r, c, token, order) =>
        RegisterQuiet(t, r, c, token, order);
        QuietLog(t, Register(t, r, c, token, order).0);
      case DeregisterStep(now, r, c) => DeregisterLog(t, now, r, c);
      case SendStep(r, c, epoch, message, order) => SendLog(t, r, c, epoch, message, order);
      case RemoveStep(ticket, r, c, token) => RemoveLog(t, ticket, r, c, token);
      case WorkerStep(connection, i, request, capacity, rooms, commands) =>
        RegisterWorkerLog(t, connection, i, request, capacity, rooms, commands);
      case ResultStep(connection, i, result, now) =>
        if i in t.workers && t.workers[i].connection == Some(connection)
           && result.id in t.pending && t.pending[result.id].SyncPending? {
          SyncLog(t, connection, i, result, now);
        } else {
          ResultLog(t, connection, i, result, now);
        }
      case EventStep(connection, i, event) =>
        EventQuiet(t, connection, i, event);
        QuietLog(t, HandleEvent(t, connection, i, event).0);
      case LostStep(connection, i, now) =>
        LostQuiet(t, connection, i, now);
        QuietLog(t, LoseWorker(t, connection, i, now));
      case TimeoutStep(now, s) => TimeoutLog(t, now, s);
      case PollStep => PollLog(t);
    }
  }

  lemma ReplayContinues(t: Table, connection: ConnectionId, i: InstanceId, result: CommandResult, now: Instant)
    requires ReplaysNow(t, ResultStep(connection, i, result, now))
    ensures Continues(t, HandleResult(t, connection, i, result, now).0)
  {
    hide PushCommands;
    var p := t.pending[result.id];
    PushCommandsKeeps(Forget(t, {result.id}), connection, p.replay);
  }

  /** Every step continues the history of commands. */
  lemma StepContinues(t: Table, step: Step)
    requires CommandsOk(t)
    ensures Continues(t, Apply(t, step))
  {
    if step.PollStep? {
      hide CommandsOk;
    } else if ReplaysNow(t, step) {
      hide CommandsOk, HandleResult;
      ReplayContinues(t, step.connection, step.instance, step.result, step.now);
    } else {
      StepLog(t, step);
      hide CommandsOk, Apply;
    }
  }

  lemma RegisterQuiet(t: Table, r: RoomId, c: ClientId, token: string, order: seq<ClientId>)
    ensures Quiet(t, Register(t, r, c, token, order).0)
  {
    hide RegisteredMembers;
  }

  lemma LostQuiet(t: Table, connection: ConnectionId, i: InstanceId, now: Instant)
    ensures Quiet(t, LoseWorker(t, connection, i, now))
  {
  }

  lemma PollLog(t: Table)
    requires CommandsOk(t)
    ensures CommandsOk(PollAction(t)) && NoPlans(t, PollAction(t))
  {
    var t' := PollAction(t);
    if t.actions != [] {
      assert t.actions == [t.actions[0]] + t'.actions;
    }
    assert forall a :: a in t'.actions ==> a in t.actions;
    assert forall command :: IsIssued(t, command) == IsIssued(t', command);
    assert QueueOk(t');
    assert ReplaysOk(t') by {
      forall k | k in t'.pending && t'.pending[k].SyncPending? ensures ReplayOk(t', t'.pending[k]) {
        assert ReplayOk(t, t.pending[k]);
      }
    }
  }
}
