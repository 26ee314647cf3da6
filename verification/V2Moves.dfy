/** One room as a machine of its own: the ways an operation can change it, and what each keeps.
    `V2RoomSteps` shows that every step of the table moves each room along such a trail. */
module V2Moves {
  import opened Wrappers
  import opened Sfu
  import opened V2State
  import opened V2Steps
  import opened V2Rooms

  ghost function RoomAt(t: Table, r: RoomId): Option<Room> {
    if r in t.rooms then Some(t.rooms[r]) else None
  }

  datatype Move =
    | Created(client: ClientId, member: Member)
    | Paired(client: ClientId, member: Member)
    | UpgradeBegun(ticket: Ticket, client: ClientId, member: Member, instance: InstanceId,
                   lifecycles: map<ClientId, nat>)
    | JoinBegun(ticket: Ticket, client: ClientId, member: Member)
    | MemberRegistered(client: ClientId)
    | MemberDeregistered(client: ClientId)
    | GraceSet(client: ClientId, deadline: Instant)
    | MessageQueued(client: ClientId, message: string)
    | Departed(gone: set<ClientId>)
    | Reaped
    | LeaveBegun(removal: Option<Ticket>, client: ClientId)
    | BarrierAdvanced(client: ClientId)
    | UpgradeCommitted(client: ClientId)
    | UpgradeAborted
    | JoinEnded(accepted: bool)
    | LeaveEnded(left: bool, client: ClientId, now: Instant, dwell: nat)
    | ForceFailed
    | Expired
    | Disarmed
    | RoomDowngraded

  ghost function Remaining(room: Room): Option<Room> {
    if room.members == map[] then None else Some(room)
  }

  ghost predicate Enabled(a: Option<Room>, m: Move) {
    if a.None? then
      m.Created? && m.member.isInitiator && !m.member.registered && m.member.deadline.Some? && m.member.queue == []
    else
      var room := a.value;
      match m
      case Created(_, _) => false
      case Paired(c, member) =>
        room.mode == P2p && |room.members| < MAX_P2P_MEMBERS && c !in room.members && Newcomer(member) && member.deadline.Some?
      case UpgradeBegun(_, c, member, _, lifecycles) =>
        && room.mode == P2p && |room.members| >= MAX_P2P_MEMBERS && c !in room.members && Newcomer(member)
        && member.deadline.Some? && lifecycles.Keys == room.members.Keys
      case JoinBegun(_, c, member) =>
        && room.mode == Sfu && room.pendingJoin.None? && room.pendingLeave.None?
        && c !in room.members && Newcomer(member) && member.deadline.Some?
      case MemberRegistered(c) => room.mode != Upgrading && c in room.members && !room.members[c].registered
      case MemberDeregistered(c) => c in room.members
      case GraceSet(c, _) => c in room.members && !room.members[c].registered
      case MessageQueued(c, _) =>
        && c in room.members && (room.mode == P2p || room.mode == Failed)
        && (room.mode == P2p ==> forall d :: d in room.members && d != c ==> !room.members[d].registered)
      case Departed(gone) => (room.mode == P2p || room.mode == Failed) && gone != {} && gone <= room.members.Keys
      case Reaped => room.mode == P2p && room.members == map[]
      case LeaveBegun(_, c) => room.mode == Sfu && room.pendingLeave.None? && c in room.members
      case BarrierAdvanced(_) =>
        room.upgrade.Some? && room.upgrade.value.next + 1 < |room.upgrade.value.ordered|
      case UpgradeCommitted(_) =>
        room.upgrade.Some? && room.upgrade.value.next + 1 == |room.upgrade.value.ordered|
      case UpgradeAborted => room.upgrade.Some?
      case JoinEnded(_) => room.pendingJoin.Some?
      case LeaveEnded(_, _, _, _) => room.pendingLeave.Some?
      case ForceFailed => true
      case Expired => room.mode != Upgrading
      case Disarmed => true
      case RoomDowngraded => DowngradeEligible(room)
  }

  ghost function Moved(a: Option<Room>, m: Move): Option<Room>
    requires Enabled(a, m)
  {
    if a.None? then
      Some(Room(map[m.client := m.member], P2p, 0, 0, None, None, None, None, None))
    else
      var room := a.value;
      match m
      case Paired(c, member) => Some(WithMember(room, c, member))
      case UpgradeBegun(ticket, c, member, i, lifecycles) =>
        Some(BarrierRoom(room, ticket, c, member, i, lifecycles))
      case JoinBegun(ticket, c, member) =>
        Some(WithMember(room, c, member).(pendingJoin := Some(PendingJoin(ticket, c)), downgradeDeadline := None))
      case MemberRegistered(c) =>
        Some(room.(members := RegisteredMembers(room.members, c, room.mode == P2p)))
      case MemberDeregistered(c) => Some(WithMember(room, c, room.members[c].(registered := false)))
      case GraceSet(c, d) => Some(WithMember(room, c, room.members[c].(deadline := Some(d))))
      case MessageQueued(c, message) =>
        Some(WithMember(room, c, room.members[c].(queue := room.members[c].queue + [message])))
      case Departed(gone) => Remaining(Survivors(room.(members := room.members - gone)))
      case Reaped => None
      case LeaveBegun(ticket, c) => Some(room.(pendingLeave := Some(PendingLeave(ticket, c))))
      case BarrierAdvanced(c) => Some(AdvancedRoom(room, c))
      case UpgradeCommitted(c) => Some(CommittedRoom(AdvancedRoom(room, c)))
      case UpgradeAborted => Some(AbortedRoom(room))
      case JoinEnded(accepted) =>
        var done := room.(pendingJoin := None);
        Some(if accepted then done else WithoutMember(done, room.pendingJoin.value.client))
      case LeaveEnded(left, c, now, dwell) =>
        var done := room.(pendingLeave := None);
        if left then Remaining(Armed(dwell, WithoutMember(done, c), now)) else Some(done)
      case ForceFailed => Some(room.(mode := Failed))
      case Expired => Some(ExpiredRoom(room))
      case Disarmed => Some(room.(downgradeDeadline := None))
      case RoomDowngraded => Some(DowngradedRoom(room))
  }

  /** `trail` leads from one state of a room to another. */
  ghost predicate Follows(a: Option<Room>, trail: seq<Move>, b: Option<Room>)
    decreases |trail|
  {
    if trail == [] then a == b
    else Enabled(a, trail[0]) && Follows(Moved(a, trail[0]), trail[1..], b)
  }

  lemma OneMove(a: Option<Room>, m: Move)
    requires Enabled(a, m)
    ensures Follows(a, [m], Moved(a, m))
  {
    assert [m][1..] == [];
  }

  lemma {:induction false} FollowsBoth(a: Option<Room>, first: seq<Move>, b: Option<Room>, second: seq<Move>, c: Option<Room>)
    requires Follows(a, first, b) && Follows(b, second, c)
    ensures Follows(a, first + second, c)
    decreases |first|
  {
    hide Enabled, Moved;
    if first == [] {
      assert first + second == second;
    } else {
      FollowsBoth(Moved(a, first[0]), first[1..], b, second, c);
      assert (first + second)[1..] == first[1..] + second;
    }
  }

  lemma NothingFromNothing(a: Option<Room>, m: Move)
    requires Enabled(a, m) && !m.Created?
    ensures a.Some?
  {
  }

  // ---- which moves a step can make ----

  ghost predicate Makes(step: Step, m: Move) {
    match m
    case Created(c, _) => step.AdmitStep? && step.client == c
    case Paired(c, _) => step.AdmitStep? && step.client == c
    case UpgradeBegun(ticket, c, _, _, _) => step.AdmitStep? && step.ticket == ticket && step.client == c
    case JoinBegun(ticket, c, _) => step.AdmitStep? && step.ticket == ticket && step.client == c
    case MemberRegistered(c) => step.RegisterStep? && step.client == c
    case MemberDeregistered(c) => step.DeregisterStep? && step.client == c
    case GraceSet(c, _) => step.TimeoutStep? || (step.DeregisterStep? && step.client == c)
    case MessageQueued(c, message) => step.SendStep? && step.client == c && step.message == message
    case Departed(gone) => step.TimeoutStep? || (step.RemoveStep? && gone == {step.client})
    case LeaveBegun(ticket, c) =>
      || (step.TimeoutStep? && ticket == None)
      || (step.DeregisterStep? && ticket == None && c == step.client)
      || (step.RemoveStep? && ticket == Some(step.ticket) && c == step.client)
    case BarrierAdvanced(_) => step.ResultStep?
    case UpgradeCommitted(_) => step.ResultStep?
    case JoinEnded(_) => step.ResultStep?
    case LeaveEnded(_, _, now, _) => step.ResultStep? && step.now == now
    case UpgradeAborted => step.ResultStep? || step.TimeoutStep?
    case ForceFailed => step.ResultStep? || step.EventStep?
    case _ => step.TimeoutStep?
  }

  ghost predicate AllMade(step: Step, trail: seq<Move>) {
    forall m :: m in trail ==> Makes(step, m)
  }

  /** No move of the trail fails the room by force. */
  ghost predicate Unforced(trail: seq<Move>) {
    forall m :: m in trail ==> !m.ForceFailed?
  }

  // ---- what a move keeps ----

  ghost predicate OkOpt(a: Option<Room>, e1: bool) {
    a.Some? ==> RoomOk(a.value, e1)
  }

  lemma DepartureOk(room: Room, gone: set<ClientId>, e1: bool)
    requires RoomOk(room, e1) && Enabled(Some(room), Departed(gone))
    ensures OkOpt(Moved(Some(room), Departed(gone)), e1)
  {
    if room.mode == P2p {
      DepartedOk(room, gone, e1);
    } else {
      MembersShape(room, room.members - gone);
    }
    hide RoomOk;
  }

  /** Every move keeps the room in shape; unless it is forced to fail, it keeps the roles too. */
  lemma MoveKeepsRoom(a: Option<Room>, m: Move, e1: bool)
    requires OkOpt(a, e1) && Enabled(a, m) && (e1 ==> !m.ForceFailed?)
    ensures OkOpt(Moved(a, m), e1)
  {
    hide RoomOk, Survivors, BarrierRoom, ExpiredRoom, DowngradedRoom, CommittedRoom, AbortedRoom, RegisteredMembers,
         Armed, DowngradeEligible;
    if a.None? {
      CreatedOk(m.client, m.member, e1);
    } else {
      var room := a.value;
      match m {
        case Created(_, _) =>
        case Paired(c, member) => SecondOk(room, c, member, e1);
        case UpgradeBegun(ticket, c, member, i, lifecycles) =>
          BarrierOk(room, ticket, c, member, i, lifecycles, e1);
        case JoinBegun(ticket, c, member) => JoiningOk(room, c, member, PendingJoin(ticket, c), e1);
        case MemberRegistered(c) => RegisteredOk(room, c, e1);
        case MemberDeregistered(c) => MemberDeregisteredOk(room, c, e1);
        case GraceSet(c, d) => CalmerMember(room, c, room.members[c].(deadline := Some(d)), e1);
        case MessageQueued(c, message) => EnqueuedOk(room, c, message, e1);
        case Departed(gone) => DepartureOk(room, gone, e1);
        case Reaped =>
        case LeaveBegun(ticket, c) => LeaveBegunOk(room, PendingLeave(ticket, c), e1);
        case BarrierAdvanced(c) => AdvancedOk(room, c, e1);
        case UpgradeCommitted(c) => CommittedOk(room, c, e1);
        case UpgradeAborted => AbortedOk(room, e1);
        case JoinEnded(accepted) => JoinDoneOk(room, e1);
        case LeaveEnded(left, c, now, dwell) => LeaveDoneOk(dwell, room, c, now, e1);
        case ForceFailed => FailedOk(room);
        case Expired => ExpiredOk(room, e1);
        case Disarmed => DeadlineDroppedOk(room, e1);
        case RoomDowngraded => DowngradedOk(room, e1);
      }
    }
  }

  lemma MemberDeregisteredOk(room: Room, c: ClientId, e1: bool)
    requires RoomOk(room, e1) && c in room.members
    ensures RoomOk(WithMember(room, c, room.members[c].(registered := false)), e1)
  {
    CalmerMember(room, c, room.members[c].(registered := false), e1);
  }

  lemma {:induction false} TrailKeepsRoom(a: Option<Room>, trail: seq<Move>, b: Option<Room>, e1: bool)
    requires OkOpt(a, e1) && Follows(a, trail, b) && (e1 ==> Unforced(trail))
    ensures OkOpt(b, e1)
    decreases |trail|
  {
    hide OkOpt, Enabled, Moved;
    if trail != [] {
      MoveKeepsRoom(a, trail[0], e1);
      assert forall m :: m in trail[1..] ==> m in trail;
      TrailKeepsRoom(Moved(a, trail[0]), trail[1..], b, e1);
    }
  }
}
