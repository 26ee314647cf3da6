/** Giving up an upgrade: the original members get their room back as it was, and the worker is
    told to drop exactly the members it had taken. */
module V2Rollback {
  import opened Wrappers
  import opened Collections
  import opened Sfu
  import opened V2State
  import opened V2Steps
  import opened V2Rooms
  import opened V2Moves
  import opened V2RoomSteps
  import opened V2Commands
  import opened V2Slots
  import opened V2SlotSteps
  import opened V2SlotTimers
  import opened V2Fresh
  import opened V2Channel

  // ---- what the original members keep ----

  datatype Seat = Seat(token: string, isInitiator: bool, queue: seq<string>)

  /** The original members: token, role and queued messages of each. */
  ghost function Seats(room: Room): map<ClientId, Seat> {
    map c | c in Party(room) && c in room.members ::
      Seat(room.members[c].token, room.members[c].isInitiator, room.members[c].queue)
  }

  ghost predicate SameSeats(a: Room, b: Room) {
    Seats(b) == Seats(a) && Party(b) == Party(a) && b.signalEpoch == a.signalEpoch
  }

  /** Moves that can happen to a room during an upgrade without ending it. */
  ghost predicate DuringUpgrade(m: Move) {
    m.UpgradeBegun? || m.MemberDeregistered? || m.GraceSet? || m.BarrierAdvanced? || m.Disarmed?
  }

  lemma UpgradeMove(a: Option<Room>, m: Move)
    requires Enabled(a, m) && DuringUpgrade(m) && OkOpt(a, true) && Direct(a)
    ensures Direct(Moved(a, m)) && SameSeats(a.value, Moved(a, m).value)
  {
    var room := a.value;
    match m {
      case UpgradeBegun(ticket, c, member, i, lifecycles) => BarrierSeats(room, ticket, c, member, i, lifecycles);
      case MemberDeregistered(c) => SeatKept(room, c, room.members[c].(registered := false));
      case GraceSet(c, d) => SeatKept(room, c, room.members[c].(deadline := Some(d)));
      case BarrierAdvanced(c) => assert Seats(AdvancedRoom(room, c)) == Seats(room);
      case Disarmed => assert Seats(room.(downgradeDeadline := None)) == Seats(room);
    }
    hide Seats;
  }

  lemma SeatKept(room: Room, c: ClientId, member: Member)
    requires c in room.members
    requires member.token == room.members[c].token && member.isInitiator == room.members[c].isInitiator
    requires member.queue == room.members[c].queue
    ensures SameSeats(room, WithMember(room, c, member))
  {
    var b := WithMember(room, c, member);
    assert b.members.Keys == room.members.Keys;
    assert Seats(b) == Seats(room);
  }

  lemma BarrierSeats(room: Room, ticket: Ticket, c: ClientId, member: Member, i: InstanceId,
                     lifecycles: map<ClientId, nat>)
    requires c !in room.members && room.upgrade.None?
    ensures SameSeats(room, BarrierRoom(room, ticket, c, member, i, lifecycles))
  {
    var b := BarrierRoom(room, ticket, c, member, i, lifecycles);
    assert b.members.Keys == room.members.Keys + {c};
    assert Party(b) == Party(room);
    assert Seats(b) == Seats(room);
  }

  /** A trail that ends in the middle of an upgrade. */
  lemma {:induction false} UpgradeTrail(a: Option<Room>, trail: seq<Move>, b: Option<Room>)
    requires Follows(a, trail, b) && OkOpt(a, true) && Direct(a) && b.Some? && b.value.mode == Upgrading
    requires (forall m :: m in trail ==> Passive(m)) || |trail| <= 1
    requires Unforced(trail)
    ensures SameSeats(a.value, b.value)
    decreases |trail|
  {
    hide Enabled, Moved, OkOpt, SameSeats, Seats;
    if trail == [] {
      assert SameSeats(a.value, b.value) by { SeatsSelf(a.value); }
    } else {
      var a1 := Moved(a, trail[0]);
      assert trail[0] in trail;
      MoveKeepsRoom(a, trail[0], true);
      assert forall m :: m in trail[1..] ==> m in trail;
      ToUpgrading(a, trail[0], trail[1..], b);
      UpgradeMove(a, trail[0]);
      UpgradeTrail(a1, trail[1..], b);
      SeatsTransitive(a.value, a1.value, b.value);
    }
  }

  lemma SeatsSelf(room: Room)
    ensures SameSeats(room, room)
  {
  }

  lemma SeatsTransitive(a: Room, b: Room, c: Room)
    requires SameSeats(a, b) && SameSeats(b, c)
    ensures SameSeats(a, c)
  {
  }

  /** Nothing but an admission leads into an upgrade. */
  lemma {:induction false} StaysOut(a: Option<Room>, trail: seq<Move>, b: Option<Room>)
    requires Follows(a, trail, b) && (forall m :: m in trail ==> Passive(m))
    requires a.None? || a.value.mode != Upgrading
    ensures b.None? || b.value.mode != Upgrading
    decreases |trail|
  {
    hide Enabled, Moved;
    if trail != [] {
      assert trail[0] in trail;
      PassiveOut(a, trail[0]);
      assert forall m :: m in trail[1..] ==> m in trail;
      StaysOut(Moved(a, trail[0]), trail[1..], b);
    }
  }

  lemma PassiveOut(a: Option<Room>, m: Move)
    requires Enabled(a, m) && Passive(m) && (a.None? || a.value.mode != Upgrading)
    ensures Moved(a, m).None? || Moved(a, m).value.mode != Upgrading
  {
    hide Armed;
    if m.LeaveEnded? { ArmedMode(m.dwell, WithoutMember(a.value.(pendingLeave := None), m.client), m.now); }
  }

  lemma ToUpgrading(a: Option<Room>, m: Move, rest: seq<Move>, b: Option<Room>)
    requires Enabled(a, m) && OkOpt(a, true) && Direct(a) && !m.ForceFailed?
    requires Follows(Moved(a, m), rest, b) && b.Some? && b.value.mode == Upgrading
    requires rest == [] || (Passive(m) && forall k :: k in rest ==> Passive(k))
    ensures DuringUpgrade(m)
  {
    if rest != [] && (Moved(a, m).None? || Moved(a, m).value.mode != Upgrading) {
      StaysOut(Moved(a, m), rest, b);
    }
    hide Survivors, Armed, DowngradeEligible;
  }

  /** A step that leaves a direct room in an upgrade leaves its original members as they were. */
  lemma StepSeats(t: Table, step: Step, r: RoomId)
    requires RoomsOk(t, true) && ProperOrders(t, step) && !ReachesFailRoom(t, step)
    requires Direct(RoomAt(t, r)) && r in Apply(t, step).rooms && Apply(t, step).rooms[r].mode == Upgrading
    ensures SameSeats(t.rooms[r], Apply(t, step).rooms[r])
  {
    Weaken(t, true);
    assert OkOpt(RoomAt(t, r), true);
    hide RoomsOk, Apply, ProperOrders, ReachesFailRoom, Follows, SameSeats;
    if step.RegisterStep? {
      RegisterDuring(t, step.room, step.client, step.token, step.order, r);
      assert Apply(t, step) == Register(t, step.room, step.client, step.token, step.order).0 by { ApplyRegister(t, step); }
    } else if step.SendStep? {
      assert Apply(t, step) == Send(t, step.room, step.client, step.epoch, step.message, step.order).0 by { ApplySend(t, step); }
      SendDuring(t, step.room, step.client, step.epoch, step.message, step.order, r);
    } else {
      var trail := StepTrail(t, step, r);
      if !step.AdmitStep? && !step.ResultStep? { PassiveMade(step, trail); }
      UpgradeTrail(RoomAt(t, r), trail, RoomAt(Apply(t, step), r));
    }
  }

  lemma ApplyRegister(t: Table, step: Step)
    requires step.RegisterStep?
    ensures Apply(t, step) == Register(t, step.room, step.client, step.token, step.order).0
  {
    hide Register;
  }

  lemma ApplySend(t: Table, step: Step)
    requires step.SendStep?
    ensures Apply(t, step) == Send(t, step.room, step.client, step.epoch, step.message, step.order).0
  {
    hide Send;
  }

  lemma RegisterDuring(t: Table, s: RoomId, c: ClientId, token: string, order: seq<ClientId>, r: RoomId)
    requires r in t.rooms
    requires var t' := Register(t, s, c, token, order).0; r in t'.rooms && t'.rooms[r].mode == Upgrading
    ensures SameSeats(t.rooms[r], Register(t, s, c, token, order).0.rooms[r])
  {
    hide SameSeats, RegisteredMembers, QueuedFor;
    SeatsSelf(t.rooms[r]);
  }

  lemma SendDuring(t: Table, s: RoomId, c: ClientId, epoch: nat, message: string, order: seq<ClientId>, r: RoomId)
    requires r in t.rooms
    requires var t' := Send(t, s, c, epoch, message, order).0; r in t'.rooms && t'.rooms[r].mode == Upgrading
    ensures SameSeats(t.rooms[r], Send(t, s, c, epoch, message, order).0.rooms[r])
  {
    hide SameSeats;
    SeatsSelf(t.rooms[r]);
  }

  /** What an abort restores: a direct room of the original members, unassigned, roles, queues and
      signal epoch untouched. */
  lemma AbortRestores(room: Room)
    requires RoomOk(room, true) && room.mode == Upgrading
    ensures var back := AbortedRoom(room);
            && back.mode == P2p && back.instance.None? && back.upgrade.None?
            && back.pendingJoin.None? && back.pendingLeave.None? && back.downgradeDeadline.None?
            && back.members.Keys == Party(room) && |back.members| == MAX_P2P_MEMBERS
            && SameSeats(room, back)
  {
    var back := AbortedRoom(room);
    var c := room.upgrade.value.joining;
    MemberCounts(room.members, c, room.members[c]);
    assert Seats(back) == Seats(room);
  }

  // ---- exactly the members that the worker took ----

  /** Each acknowledged Join was put in flight once, and is no longer in flight. */
  ghost predicate AckOnce(t: Table, join: JoinMember) {
    exists q :: q in JoinsOf(t) && JoinsOf(t)[q] == join && q !in t.pending
  }

  ghost predicate AcksOk(t: Table, acks: Acks) {
    forall ack :: ack in acks ==> AckOnce(t, ack.1)
  }

  lemma KeptAck(t: Table, t': Table, join: JoinMember)
    requires CommandsOk(t) && Continues(t, t') && t'.pending.Keys == t'.owners.Keys && AckOnce(t, join)
    ensures AckOnce(t', join)
  {
    var q :| q in JoinsOf(t) && JoinsOf(t)[q] == join && q !in t.pending;
    assert q in t.issued && q < t.nextRequest;
    assert q in JoinsOf(t') && JoinsOf(t')[q] == join;
  }

  /** A result takes its command out of flight for good. */
  lemma ResultClears(t: Table, connection: ConnectionId, i: InstanceId, result: CommandResult, now: Instant)
    requires CommandsOk(t) && i in t.workers && t.workers[i].connection == Some(connection) && result.id in t.pending
    requires !t.pending[result.id].SyncPending?
    ensures result.id !in HandleResult(t, connection, i, result, now).0.pending
  {
    hide HandleResult, UpgradeJoinResult, SfuJoinResult, SfuLeaveResult;
    var t1 := Forget(t, {result.id});
    var t' := HandleResult(t, connection, i, result, now).0;
    assert result.id < t.nextRequest by { assert IsIssued(t, t.unacked[result.id]); }
    ForgetLog(t, {result.id});
    AfterForget(t1, i, t.pending[result.id], result, now);
    ResultLog(t, connection, i, result, now);
    assert t'.pending.Keys == t'.owners.Keys;
    ResultIs(t, connection, i, result, now);
  }

  lemma ResultIs(t: Table, connection: ConnectionId, i: InstanceId, result: CommandResult, now: Instant)
    requires i in t.workers && t.workers[i].connection == Some(connection) && result.id in t.pending
    requires !t.pending[result.id].SyncPending?
    ensures var t1 := Forget(t, {result.id});
            var p := t.pending[result.id];
            HandleResult(t, connection, i, result, now).0
            == if p.UpgradeJoin? then UpgradeJoinResult(t1, i, p, result).0
               else if p.SfuJoin? then SfuJoinResult(t1, i, p, result).0
               else if p.SfuLeave? then SfuLeaveResult(t1, i, p, result, now).0 else t1
  {
    hide UpgradeJoinResult, SfuJoinResult, SfuLeaveResult;
  }

  lemma AfterForget(t: Table, i: InstanceId, p: PendingCommand, result: CommandResult, now: Instant)
    requires CommandsOk(t) && !p.SyncPending?
    ensures p.UpgradeJoin? ==> Continues(t, UpgradeJoinResult(t, i, p, result).0)
    ensures p.SfuJoin? ==> Continues(t, SfuJoinResult(t, i, p, result).0)
    ensures p.SfuLeave? ==> Continues(t, SfuLeaveResult(t, i, p, result, now).0)
  {
    hide UpgradeJoinResult, SfuJoinResult, SfuLeaveResult, CommandsOk;
    if p.UpgradeJoin? { UpgradeJoinLog(t, i, p, result); }
    if p.SfuJoin? { SfuJoinQuiet(t, i, p, result); QuietLog(t, SfuJoinResult(t, i, p, result).0); }
    if p.SfuLeave? { SfuLeaveQuiet(t, i, p, result, now); QuietLog(t, SfuLeaveResult(t, i, p, result, now).0); }
  }

  lemma PendingJoinIssued(t: Table, q: RequestId)
    requires CommandsOk(t) && q in t.pending && (t.pending[q].UpgradeJoin? || t.pending[q].SfuJoin?)
    ensures q in JoinsOf(t) && JoinsOf(t)[q] == t.pending[q].join
  {
    assert IsIssued(t, t.unacked[q]);
  }

  /** Every step keeps acknowledged Joins accounted for. */
  lemma StepAcks(t: Table, step: Step, acks: Acks)
    requires CommandsOk(t) && AcksOk(t, acks)
    ensures AcksOk(Apply(t, step), AcksAfter(t, acks, step))
  {
    var t' := Apply(t, step);
    StepContinues(t, step);
    StepLog(t, step);
    assert t'.pending.Keys == t'.owners.Keys;
    forall ack | ack in AcksAfter(t, acks, step) ensures AckOnce(t', ack.1) {
      if ack in acks {
        KeptAck(t, t', ack.1);
      } else {
        PendingJoinIssued(t, step.result.id);
        ResultClears(t, step.connection, step.instance, step.result, step.now);
        var q := step.result.id;
        assert q in JoinsOf(t') && JoinsOf(t')[q] == ack.1;
      }
    }
    hide CommandsOk, Apply, EmitsFresh;
  }

  /** A member the barrier has not passed is not acknowledged under its present id. */
  lemma NotYetAcked(t: Table, r: RoomId, c: ClientId, i: InstanceId, acks: Acks, k: nat)
    requires CommandsOk(t) && AcksOk(t, acks) && FreshOk(t)
    requires r in t.rooms && SlotAt(t, r, acks, false) && t.rooms[r].mode == Upgrading
    requires var upgrade := t.rooms[r].upgrade.value;
             upgrade.next <= k < |upgrade.ordered| && upgrade.ordered[k] == c && c in t.rooms[r].members
    ensures (i, JoinOf(r, t.rooms[r], c)) !in acks
  {
    var room := t.rooms[r];
    var join := JoinOf(r, room, c);
    if (i, join) in acks {
      assert AckOnce(t, join);
      var q :| q in JoinsOf(t) && JoinsOf(t)[q] == join && q !in t.pending;
      assert OptFresh(JoinsOf(t), t.lifecycles, r, RoomAt(t, r));
      if k == room.upgrade.value.next {
        var p :| ViewOf(t, r).upgrades == map[p := UpgradeJoin(room.instance.value, JoinOf(r, room, Awaited(room)))];
        assert p in Slot(t.pending, UpgradeSlot, r);
        PendingJoinIssued(t, p);
        assert p in JoinsOf(t) && JoinsOf(t)[p] == join && p != q;
        assert SameMember(JoinsOf(t)[p], JoinsOf(t)[q]);
      }
    }
  }

  /** The clients that the barrier counts as joined are exactly those the worker acknowledged. */
  lemma JoinedExactly(t: Table, r: RoomId, acks: Acks)
    requires CommandsOk(t) && AcksOk(t, acks) && FreshOk(t)
    requires r in t.rooms && SlotAt(t, r, acks, false) && t.rooms[r].mode == Upgrading
    ensures var room := t.rooms[r];
            && room.upgrade.Some? && room.instance.Some?
            && forall c :: c in room.members ==> (c in room.upgrade.value.joined <==> Acked(acks, r, room, c))
  {
    hide FreshOk, CommandsOk, AcksOk;
    var room := t.rooms[r];
    var upgrade := room.upgrade.value;
    assert BarrierShape(r, room, acks);
    forall c | c in room.members && c !in upgrade.joined ensures !Acked(acks, r, room, c) {
      var k := PlaceOf(r, room, c, acks);
      assert forall j :: 0 <= j < upgrade.next ==> upgrade.joined[j] == upgrade.ordered[j] && upgrade.joined[j] in upgrade.joined;
      NotYetAcked(t, r, c, room.instance.value, acks, k);
    }
  }

  lemma PlaceOf(r: RoomId, room: Room, c: ClientId, acks: Acks) returns (k: nat)
    requires BarrierShape(r, room, acks) && c in room.members
    ensures k < |room.upgrade.value.ordered| && room.upgrade.value.ordered[k] == c
  {
    var upgrade := room.upgrade.value;
    var rest := room.members.Keys - {upgrade.joining};
    SortedSeqLists(rest);
    if c == upgrade.joining {
      k := |SortedSeq(rest)|;
    } else {
      assert c in SortedSeq(rest);
      k :| 0 <= k < |SortedSeq(rest)| && SortedSeq(rest)[k] == c;
    }
  }

  // ---- the Leaves that an abort sends ----

  /** The Leave that takes member `c` off the worker again. */
  ghost function LeaveFor(r: RoomId, members: map<ClientId, Member>, c: ClientId, epoch: nat): CommandKind
    requires c in members
  {
    LeaveCommand(LeaveMember(r, c, members[c].lifecycle, epoch, RoomClosed))
  }

  /** From `t` to `t'`, one Leave for each of `clients`, in order, and no other command, was sent. */
  ghost predicate SentLeaves(t: Table, t': Table, r: RoomId, connection: ConnectionId, clients: seq<ClientId>, epoch: nat) {
    && r in t.rooms && (forall c :: c in clients ==> c in t.rooms[r].members)
    && t'.nextRequest == t.nextRequest + |clients|
    && |t'.actions| == |t.actions| + |clients| && t.actions <= t'.actions
    && forall k :: 0 <= k < |clients| ==>
         && t'.actions[|t.actions| + k]
            == SfuOut(CommandOut(connection, Command(t.nextRequest + k, LeaveFor(r, t.rooms[r].members, clients[k], epoch))))
  }

  lemma {:induction false} CleanupSends(t: Table, r: RoomId, i: InstanceId, connection: ConnectionId,
                                        clients: seq<ClientId>, epoch: nat)
    requires r in t.rooms && forall c :: c in clients ==> c in t.rooms[r].members
    ensures SentLeaves(t, CleanupLeaves(t, r, i, connection, clients, epoch).0, r, connection, clients, epoch)
    decreases |clients|
  {
    if clients != [] {
      var c, rest := clients[0], clients[1..];
      assert c in clients && forall d :: d in rest ==> d in clients;
      var leave := LeaveMember(r, c, t.rooms[r].members[c].lifecycle, epoch, RoomClosed);
      var t1 := IssueCommand(t, i, connection, LeaveCommand(leave), CleanupPending);
      var t' := CleanupLeaves(t1, r, i, connection, rest, epoch).0;
      CleanupSends(t1, r, i, connection, rest, epoch);
      forall k | 0 <= k < |clients|
        ensures t'.actions[|t.actions| + k]
                == SfuOut(CommandOut(connection, Command(t.nextRequest + k, LeaveFor(r, t.rooms[r].members, clients[k], epoch))))
      {
        if k > 0 { assert clients[k] == rest[k - 1]; assert t'.actions[|t1.actions| + (k - 1)] == t'.actions[|t.actions| + k]; }
        else { assert t1.actions[|t.actions|] == t'.actions[|t.actions|]; }
      }
    }
  }

  /** A connected worker is told to drop the members it has joined, in order, under the same ids and assignment
      epoch; a disconnected one is told nothing. Then the admission is refused. */
  ghost predicate TellsWorker(t: Table, t': Table, r: RoomId, reason: string)
    requires r in t.rooms && t.rooms[r].upgrade.Some?
  {
    var room := t.rooms[r];
    var upgrade := room.upgrade.value;
    var answer := AdmissionCompleted(upgrade.ticket, Err(if reason == "" then "WORKER_UNAVAILABLE" else reason));
    match RoomConnection(t, room)
    case None => t'.nextRequest == t.nextRequest && t'.actions == t.actions + [answer]
    case Some(connection) =>
      && |t'.actions| > 0 && t'.actions[|t'.actions| - 1] == answer
      && SentLeaves(t, t'.(actions := t'.actions[..|t'.actions| - 1]), r, connection, upgrade.joined, room.assignmentEpoch)
  }

  lemma TellsSame(t: Table, t1: Table, t': Table, r: RoomId, reason: string)
    requires r in t.rooms && t.rooms[r].upgrade.Some?
    requires t1.rooms == t.rooms && t1.workers == t.workers && t1.actions == t.actions && t1.nextRequest == t.nextRequest
    requires TellsWorker(t1, t', r, reason)
    ensures TellsWorker(t, t', r, reason)
  {
  }

  lemma AbortLeaves(t: Table, r: RoomId, reason: string, acks: Acks)
    requires r in t.rooms && BarrierShape(r, t.rooms[r], acks)
    ensures TellsWorker(t, AbortUpgrade(t, r, reason).0, r, reason)
  {
    var room := t.rooms[r];
    var i := room.instance.value;
    var upgrade := room.upgrade.value;
    var t1 := PutRoom(t, r, AbortedRoom(room));
    var t2 := Unassign(t1, r, i, 3);
    JoinedMembers(r, room, acks);
    assert Connection(t2, i) == Connection(t, i);
    assert t2.nextRequest == t.nextRequest && t2.actions == t.actions && t2.rooms[r] == AbortedRoom(room);
    CleanupSucceeds(t2, r, i, upgrade.joined, room.assignmentEpoch);
    if Connection(t, i).Some? {
      var connection := Connection(t, i).value;
      CleanupSends(t2, r, i, connection, upgrade.joined, room.assignmentEpoch);
      var t3 := CleanupLeaves(t2, r, i, connection, upgrade.joined, room.assignmentEpoch).0;
      assert forall c :: c in upgrade.joined ==> AbortedRoom(room).members[c] == room.members[c];
      hide CleanupLeaves, AbortedRoom, Unassign;
      assert SentLeaves(t, t3, r, connection, upgrade.joined, room.assignmentEpoch) by {
        LeavesFrom(t, t2, t3, r, connection, upgrade.joined, room.assignmentEpoch);
      }
      AbortIs(t, r, reason, t3);
      var t' := AbortUpgrade(t, r, reason).0;
      assert t'.actions[..|t'.actions| - 1] == t3.actions;
      hide AbortUpgrade, BarrierShape;
      SameSends(t, t3, t'.(actions := t3.actions), r, connection, upgrade.joined, room.assignmentEpoch);
    }
  }

  lemma AbortIs(t: Table, r: RoomId, reason: string, t3: Table)
    requires r in t.rooms && t.rooms[r].upgrade.Some? && t.rooms[r].instance.Some?
    requires var room := t.rooms[r];
             var i := room.instance.value;
             var cleaned := Cleanup(Unassign(PutRoom(t, r, AbortedRoom(room)), r, i, 3), r, i, room.upgrade.value.joined,
                                    room.assignmentEpoch);
             cleaned.1.Ok? && cleaned.0 == t3
    ensures var why := if reason == "" then "WORKER_UNAVAILABLE" else reason;
            AbortUpgrade(t, r, reason).0 == Push(t3, AdmissionCompleted(t.rooms[r].upgrade.value.ticket, Err(why)))
  {
    hide Cleanup, Unassign;
  }

  lemma LeavesFrom(t: Table, t2: Table, t3: Table, r: RoomId, connection: ConnectionId, clients: seq<ClientId>, epoch: nat)
    requires SentLeaves(t2, t3, r, connection, clients, epoch)
    requires t2.nextRequest == t.nextRequest && t2.actions == t.actions && r in t.rooms
    requires forall c :: c in clients ==> c in t2.rooms[r].members && c in t.rooms[r].members
                                          && t2.rooms[r].members[c] == t.rooms[r].members[c]
    ensures SentLeaves(t, t3, r, connection, clients, epoch)
  {
    forall k | 0 <= k < |clients|
      ensures t3.actions[|t.actions| + k]
              == SfuOut(CommandOut(connection, Command(t.nextRequest + k, LeaveFor(r, t.rooms[r].members, clients[k], epoch))))
    {
      assert clients[k] in clients;
      assert t3.actions[|t2.actions| + k]
          == SfuOut(CommandOut(connection, Command(t2.nextRequest + k, LeaveFor(r, t2.rooms[r].members, clients[k], epoch))));
    }
  }

  lemma SameSends(t: Table, a: Table, b: Table, r: RoomId, connection: ConnectionId, clients: seq<ClientId>, epoch: nat)
    requires SentLeaves(t, a, r, connection, clients, epoch) && b.nextRequest == a.nextRequest && b.actions == a.actions
    ensures SentLeaves(t, b, r, connection, clients, epoch)
  {
  }

  /** Nothing is sent, and no session changes. */
  ghost predicate Silent(t: Table, t': Table) {
    && t'.nextRequest == t.nextRequest && t.actions <= t'.actions
    && (forall k :: |t.actions| <= k < |t'.actions| ==> !IsCommand(t'.actions[k]))
    && forall i: InstanceId :: Connection(t', i) == Connection(t, i)
  }

  lemma SameConnections(t: Table, t': Table)
    requires SameSessions(t, t')
    ensures forall i: InstanceId :: Connection(t', i) == Connection(t, i)
  {
  }

  lemma AbortUnheard(t: Table, r: RoomId, reason: string)
    requires r in t.rooms && t.rooms[r].upgrade.Some? && t.rooms[r].instance.Some?
    requires var room := t.rooms[r];
             Connection(Unassign(PutRoom(t, r, AbortedRoom(room)), r, room.instance.value, 3), room.instance.value).None?
    ensures var room := t.rooms[r];
            AbortUpgrade(t, r, reason).0
            == Push(Unassign(PutRoom(t, r, AbortedRoom(room)), r, room.instance.value, 3),
                    AdmissionCompleted(room.upgrade.value.ticket, Err(if reason == "" then "WORKER_UNAVAILABLE" else reason)))
  {
    hide Unassign, WithoutMember, Cleanup;
    var room := t.rooms[r];
    NoCleanup(Unassign(PutRoom(t, r, AbortedRoom(room)), r, room.instance.value, 3), r, room.instance.value,
              room.upgrade.value.joined, room.assignmentEpoch);
  }

  lemma UnassignSilent(t: Table, r: RoomId, room: Room, i: InstanceId)
    ensures Silent(t, Unassign(PutRoom(t, r, room), r, i, 3))
  {
    hide Unassign, SameSessions;
    var t1 := PutRoom(t, r, room);
    UnassignSessions(t1, r, i, 3);
    SameConnections(t1, Unassign(t1, r, i, 3));
    UnassignKeeps(t1, r, i, 3);
    assert forall j: InstanceId :: Connection(t1, j) == Connection(t, j);
  }

  lemma NoticeSilent(t: Table, t': Table, action: Action)
    requires Silent(t, t') && !IsCommand(action)
    ensures Silent(t, Push(t', action))
  {
    assert forall j: InstanceId :: Connection(Push(t', action), j) == Connection(t', j);
  }

  lemma PutSilent(t: Table, r: RoomId, room: Room)
    ensures Silent(t, t) && Silent(t, PutRoom(t, r, room))
  {
    assert forall j: InstanceId :: Connection(PutRoom(t, r, room), j) == Connection(t, j);
  }

  /** Aborting a room whose worker is disconnected. */
  lemma AbortSilent(t: Table, r: RoomId, reason: string)
    requires r in t.rooms && RoomConnection(t, t.rooms[r]).None?
    ensures Silent(t, AbortUpgrade(t, r, reason).0)
  {
    var room := t.rooms[r];
    hide Unassign, WithoutMember, Cleanup, Silent;
    PutSilent(t, r, if room.upgrade.Some? then AbortedRoom(room) else room);
    if room.upgrade.Some? && room.instance.Some? {
      UnassignSilent(t, r, AbortedRoom(room), room.instance.value);
      SilentConnection(t, Unassign(PutRoom(t, r, AbortedRoom(room)), r, room.instance.value, 3), room.instance.value);
      AbortUnheard(t, r, reason);
      NoticeSilent(t, Unassign(PutRoom(t, r, AbortedRoom(room)), r, room.instance.value, 3),
                   AdmissionCompleted(room.upgrade.value.ticket, Err(if reason == "" then "WORKER_UNAVAILABLE" else reason)));
      hide AbortUpgrade;
    }
  }

  lemma SilentConnection(t: Table, t': Table, i: InstanceId)
    requires Silent(t, t')
    ensures Connection(t', i) == Connection(t, i)
  {
  }

  lemma NoCleanup(t: Table, r: RoomId, i: InstanceId, clients: seq<ClientId>, epoch: nat)
    requires Connection(t, i).None?
    ensures Cleanup(t, r, i, clients, epoch) == (t, Ok(()))
  {
    hide CleanupLeaves;
  }

  lemma UnassignKeeps(t: Table, r: RoomId, i: InstanceId, clients: nat)
    ensures Unassign(t, r, i, clients) == t.(workers := Unassign(t, r, i, clients).workers)
  {
  }

  lemma ExpiryNoticesSilent(r: RoomId, room: Room)
    ensures forall a :: a in ExpiryNotices(r, room) ==> !IsCommand(a)
  {
    hide ExpiredRoom;
  }

  lemma ExpireRoomSilent(t: Table, r: RoomId, i: InstanceId)
    requires Abortable(t, r, i) && Connection(t, i).None?
    ensures Silent(t, ExpireRoom(t, r))
  {
    hide AbortUpgrade, ExpiredRoom, ExpiryNotices, AbortedRoom, IsCommand;
    if r in t.rooms {
      if t.rooms[r].mode == Upgrading {
        AbortSilent(t, r, "WORKER_UNAVAILABLE");
      } else {
        ExpiryNoticesSilent(r, t.rooms[r]);
      }
    }
  }

  lemma {:induction false} ExpireRoomsSilent(t: Table, rooms: seq<RoomId>, i: InstanceId)
    requires CommandsOk(t) && NoDuplicates(rooms) && Connection(t, i).None?
    requires forall r :: r in rooms ==> Abortable(t, r, i)
    ensures Silent(t, ExpireRooms(t, rooms))
    decreases |rooms|
  {
    hide CommandsOk, EmitsFresh, ExpireRoom, AbortedRoom, AfterExpiry;
    if rooms != [] {
      var r, rest := rooms[0], rooms[1..];
      var t1 := ExpireRoom(t, r);
      assert r in rooms && Abortable(t, r, i);
      ExpireRoomSilent(t, r, i);
      ExpireRoomLog(t, r);
      assert r !in rest;
      forall k | k in rest ensures Abortable(t1, k, i) {
        assert k in rooms && Abortable(t, k, i);
        ExpireRoomView(t, r, i, k);
        assert RoomAt(t1, k) == RoomAt(t, k);
      }
      ExpireRoomsSilent(t1, rest, i);
    }
  }

  /** Expiry sends nothing: the workers that expire are disconnected, and no other worker hosts their rooms. */
  lemma {:induction false} ExpirySilent(t: Table, workers: seq<InstanceId>, hosted: map<InstanceId, seq<RoomId>>,
                                        acks: Acks, e2: bool)
    requires Core(t, acks, e2) && ExpiryOrders(t, workers, hosted)
    requires forall i :: i in workers ==> Connection(t, i).None?
    ensures Silent(t, ExpireWorkers(t, workers, hosted))
    decreases |workers|
  {
    hide CommandsOk, RoomOk, SlotAt, ExpireRooms, Abortable;
    if workers != [] {
      var i, rest := workers[0], workers[1..];
      var rooms := Listing(hosted, i);
      assert i in workers && forall w :: w in rest ==> w in workers;
      AllAbortable(t, i, rooms, acks, e2);
      ExpireRoomsSilent(t, rooms, i);
      var t1 := ExpireWorker(t, i, rooms);
      assert Silent(t, t1);
      ExpireWorkerCore(t, i, rooms, acks, e2);
      hide Core, ExpireWorker, Lists;
      ExpirySilent(t1, rest, hosted, acks, e2);
    }
  }
}
