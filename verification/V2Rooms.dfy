/** What one room keeps along every run: its shape, with no assumption on the environment, and
    its role discipline (initiators, queues), as long as no step has failed a room by force. */
module V2Rooms {
  import opened Wrappers
  import opened Collections
  import opened Sfu
  import opened V2State
  import opened V2Steps

  // ---- the invariants ----

  /** The signal epoch tells direct from relayed media: even outside SFU, odd in SFU. */
  ghost predicate Parity(room: Room) {
    && (room.mode == P2p || room.mode == Upgrading || room.upgrade.Some? ==> room.signalEpoch % 2 == 0)
    && (room.mode == Sfu ==> room.signalEpoch % 2 == 1)
  }

  ghost predicate UpgradeShape(room: Room) {
    && (room.mode == Upgrading ==> room.upgrade.Some?)
    && (room.upgrade.Some? ==>
          && (room.mode == Upgrading || room.mode == Failed)
          && room.upgrade.value.next < |room.upgrade.value.ordered|
          && (|room.members| <= MAX_P2P_MEMBERS
              || (|room.members| == MAX_P2P_MEMBERS + 1 && room.upgrade.value.joining in room.members))
          && room.downgradeDeadline.None? && room.pendingJoin.None? && room.pendingLeave.None?)
  }

  /** A connected browser is never on a reconnect deadline. */
  ghost predicate Timers(members: map<ClientId, Member>) {
    forall c :: c in members && members[c].registered ==> members[c].deadline.None?
  }

  ghost predicate RoomShape(room: Room) {
    && Parity(room)
    && UpgradeShape(room)
    && (room.mode == P2p ==>
          && |room.members| <= MAX_P2P_MEMBERS && room.instance.None?
          && room.pendingJoin.None? && room.pendingLeave.None? && room.downgradeDeadline.None?)
    && (room.downgradeDeadline.Some? ==> |room.members| <= MAX_P2P_MEMBERS && room.pendingJoin.None?)
    && Timers(room.members)
  }

  ghost predicate IsSoleInitiator(members: map<ClientId, Member>, c: ClientId) {
    && c in members && members[c].isInitiator
    && forall d :: d in members && d != c ==> !members[d].isInitiator
  }

  ghost predicate OneInitiator(members: map<ClientId, Member>) {
    exists c :: IsSoleInitiator(members, c)
  }

  /** While one member is connected, nobody else holds queued messages. */
  ghost predicate QuietPeers(members: map<ClientId, Member>) {
    forall x, y :: x in members && y in members && x != y && members[x].registered ==> members[y].queue == []
  }

  ghost predicate NoRoles(members: map<ClientId, Member>) {
    forall c :: c in members ==> !members[c].isInitiator && members[c].queue == []
  }

  /** A member that has only been admitted. */
  ghost predicate Newcomer(member: Member) {
    !member.isInitiator && !member.registered && member.queue == []
  }

  ghost predicate RoomRoles(room: Room) {
    && (room.mode == P2p ==> room.members != map[] && OneInitiator(room.members))
    && (room.mode == Upgrading && room.upgrade.Some? ==>
          && |room.members| == MAX_P2P_MEMBERS + 1
          && OneInitiator(room.members)
          && room.upgrade.value.joining in room.members
          && Newcomer(room.members[room.upgrade.value.joining]))
    && (room.mode == Sfu ==> NoRoles(room.members))
    && (room.mode == Failed ==> room.upgrade.None?)
    && (room.mode != Failed ==> QuietPeers(room.members))
  }

  /** `e1`: no step of the run has reached `fail_room`. */
  ghost predicate RoomOk(room: Room, e1: bool) {
    RoomShape(room) && (e1 ==> RoomRoles(room))
  }

  ghost predicate OkAt(t: Table, s: RoomId, e1: bool) {
    s in t.rooms ==> RoomOk(t.rooms[s], e1)
  }

  // ---- counting members ----

  lemma MemberCounts(members: map<ClientId, Member>, c: ClientId, member: Member)
    ensures c in members ==> |members[c := member]| == |members|
    ensures c !in members ==> |members[c := member]| == |members| + 1
    ensures c in members ==> |members - {c}| == |members| - 1
    ensures c !in members ==> members - {c} == members
  {
    assert |members| == |members.Keys|;
    assert |members[c := member]| == |members[c := member].Keys|;
    assert members[c := member].Keys == members.Keys + {c};
    assert |members - {c}| == |(members - {c}).Keys|;
    assert (members - {c}).Keys == members.Keys - {c};
  }

  lemma Fewer(a: map<ClientId, Member>, b: map<ClientId, Member>)
    requires a.Keys <= b.Keys
    ensures |a| <= |b|
    ensures |a| == |b| ==> a.Keys == b.Keys
  {
    assert |a| == |a.Keys| && |b| == |b.Keys|;
    assert |b.Keys - a.Keys| == |b.Keys| - |a.Keys|;
  }

  lemma Alone(members: map<ClientId, Member>, c: ClientId)
    requires c in members && |members| == 1
    ensures members.Keys == {c}
  {
    assert |members.Keys - {c}| == |members.Keys| - 1;
    assert members.Keys - {c} == {};
  }

  // ---- changes that leave the mode alone ----

  /** Dropping members, and changing what a shape does not mention, keeps the shape. */
  lemma MembersShape(room: Room, members: map<ClientId, Member>)
    requires RoomShape(room) && members.Keys <= room.members.Keys && Timers(members)
    ensures RoomShape(room.(members := members))
  {
    Fewer(members, room.members);
  }

  /** The part of a member that roles depend on is unchanged, or has become more quiet. */
  ghost predicate Calmer(before: Member, after: Member) {
    && after.isInitiator == before.isInitiator
    && (after.registered ==> before.registered)
    && (after.queue == before.queue || after.queue == [])
  }

  lemma CalmerRoles(room: Room, members: map<ClientId, Member>)
    requires RoomRoles(room) && members.Keys == room.members.Keys
    requires forall c :: c in members ==> Calmer(room.members[c], members[c])
    ensures RoomRoles(room.(members := members))
  {
    assert |members| == |members.Keys| && |room.members| == |room.members.Keys|;
    if room.mode == P2p || (room.mode == Upgrading && room.upgrade.Some?) {
      var c :| IsSoleInitiator(room.members, c);
      assert IsSoleInitiator(members, c);
    }
  }

  /** Deregistration, deadlines and the like. */
  lemma CalmerMember(room: Room, c: ClientId, member: Member, e1: bool)
    requires RoomOk(room, e1) && c in room.members && Calmer(room.members[c], member)
    requires member.registered ==> member.deadline.None?
    ensures RoomOk(WithMember(room, c, member), e1)
  {
    MembersShape(room, room.members[c := member]);
    if e1 { CalmerRoles(room, room.members[c := member]); }
  }

  // ---- admission ----

  lemma CreatedOk(c: ClientId, member: Member, e1: bool)
    requires member.isInitiator && !member.registered
    ensures RoomOk(Room(map[c := member], P2p, 0, 0, None, None, None, None, None), e1)
  {
    assert IsSoleInitiator(map[c := member], c);
  }

  lemma AddedRoles(members: map<ClientId, Member>, c: ClientId, member: Member)
    requires c !in members && Newcomer(member)
    ensures OneInitiator(members) ==> OneInitiator(members[c := member])
    ensures QuietPeers(members) ==> QuietPeers(members[c := member])
    ensures NoRoles(members) ==> NoRoles(members[c := member])
  {
    if OneInitiator(members) {
      var k :| IsSoleInitiator(members, k);
      assert IsSoleInitiator(members[c := member], k);
    }
  }

  lemma SecondOk(room: Room, c: ClientId, member: Member, e1: bool)
    requires RoomOk(room, e1) && room.mode == P2p && |room.members| < MAX_P2P_MEMBERS
    requires c !in room.members && Newcomer(member)
    ensures RoomOk(WithMember(room, c, member), e1)
  {
    MemberCounts(room.members, c, member);
    AddedRoles(room.members, c, member);
  }

  lemma JoiningOk(room: Room, c: ClientId, member: Member, join: PendingJoin, e1: bool)
    requires RoomOk(room, e1) && room.mode == Sfu && c !in room.members && Newcomer(member)
    ensures RoomOk(WithMember(room, c, member).(pendingJoin := Some(join), downgradeDeadline := None), e1)
  {
    AddedRoles(room.members, c, member);
  }

  lemma RelabelledOk(members: map<ClientId, Member>, lifecycles: map<ClientId, nat>)
    ensures var relabelled := Relabelled(members, lifecycles);
            && relabelled.Keys == members.Keys && |relabelled| == |members|
            && (Timers(members) ==> Timers(relabelled))
            && (OneInitiator(members) ==> OneInitiator(relabelled))
            && (QuietPeers(members) ==> QuietPeers(relabelled))
  {
    var relabelled := Relabelled(members, lifecycles);
    assert relabelled.Keys == members.Keys;
    assert |members| == |members.Keys| && |relabelled| == |relabelled.Keys|;
    if OneInitiator(members) {
      var k :| IsSoleInitiator(members, k);
      assert IsSoleInitiator(relabelled, k);
    }
  }

  lemma BarrierOk(room: Room, ticket: Ticket, c: ClientId, member: Member, i: InstanceId,
                  lifecycles: map<ClientId, nat>, e1: bool)
    requires RoomOk(room, e1) && room.mode == P2p && |room.members| >= MAX_P2P_MEMBERS
    requires c !in room.members && Newcomer(member)
    ensures RoomOk(BarrierRoom(room, ticket, c, member, i, lifecycles), e1)
  {
    var relabelled := Relabelled(room.members, lifecycles);
    RelabelledOk(room.members, lifecycles);
    MemberCounts(relabelled, c, member);
    AddedRoles(relabelled, c, member);
    var ordered := SortedSeq(room.members.Keys) + [c];
    assert |ordered| > 0;
  }

  // ---- registration ----

  lemma RegisteredOk(room: Room, c: ClientId, e1: bool)
    requires RoomOk(room, e1) && room.mode != Upgrading && c in room.members
    ensures RoomOk(room.(members := RegisteredMembers(room.members, c, room.mode == P2p)), e1)
  {
    var members' := RegisteredMembers(room.members, c, room.mode == P2p);
    assert members'.Keys == room.members.Keys;
    MembersShape(room, members');
    if e1 && room.mode == P2p {
      var k :| IsSoleInitiator(room.members, k);
      assert IsSoleInitiator(members', k);
    }
  }

  /** In P2P mode only a member whose peer is away may queue. */
  lemma EnqueuedOk(room: Room, c: ClientId, message: string, e1: bool)
    requires RoomOk(room, e1) && c in room.members && room.mode != Upgrading && room.mode != Sfu
    requires e1 && room.mode == P2p ==> forall d :: d in room.members && d != c ==> !room.members[d].registered
    ensures RoomOk(WithMember(room, c, room.members[c].(queue := room.members[c].queue + [message])), e1)
  {
    var members' := room.members[c := room.members[c].(queue := room.members[c].queue + [message])];
    MembersShape(room, members');
    if e1 && room.mode == P2p {
      var k :| IsSoleInitiator(room.members, k);
      assert IsSoleInitiator(members', k);
    }
  }

  // ---- departures ----

  lemma PromotedOk(room: Room, e1: bool)
    requires RoomShape(room)
    requires e1 && room.mode == P2p ==> QuietPeers(room.members)
    requires e1 && room.mode == P2p && |room.members| != 1 && room.members != map[] ==> OneInitiator(room.members)
    requires e1 && room.mode != P2p ==> RoomRoles(room)
    ensures Survivors(room).members.Keys == room.members.Keys
    ensures Survivors(room).members != map[] ==> RoomOk(Survivors(room), e1)
  {
    if |room.members| == 1 && room.mode == P2p {
      var c :| c in room.members && Survivors(room)
                                    == WithMember(room, c, room.members[c].(isInitiator := true, queue := []));
      var members' := room.members[c := room.members[c].(isInitiator := true, queue := [])];
      MembersShape(room, members');
      Alone(room.members, c);
      assert IsSoleInitiator(members', c);
    }
  }

  lemma DepartedOk(room: Room, gone: set<ClientId>, e1: bool)
    requires RoomOk(room, e1) && room.mode == P2p && gone <= room.members.Keys && gone != {}
    ensures var left := Survivors(room.(members := room.members - gone));
            left.members != map[] ==> RoomOk(left, e1)
  {
    var rest := room.(members := room.members - gone);
    MembersShape(room, rest.members);
    assert rest.members.Keys == room.members.Keys - gone;
    assert |rest.members| == |rest.members.Keys| && |room.members| == |room.members.Keys|;
    var c :| c in gone;
    assert |room.members.Keys - {c}| == |room.members.Keys| - 1;
    Fewer(rest.members, room.members - {c});
    if |rest.members| == 0 { assert rest.members == map[]; }
    PromotedOk(rest, e1);
  }

  lemma WithoutOk(room: Room, c: ClientId, e1: bool)
    requires RoomOk(room, e1) && (room.mode == Sfu || room.mode == Failed)
    ensures RoomOk(WithoutMember(room, c), e1)
  {
    MembersShape(room, room.members - {c});
  }

  // ---- the upgrade barrier ----

  lemma AdvancedOk(room: Room, c: ClientId, e1: bool)
    requires RoomOk(room, e1) && room.upgrade.Some?
    requires room.upgrade.value.next + 1 < |room.upgrade.value.ordered|
    ensures RoomOk(AdvancedRoom(room, c), e1)
  {
  }

  lemma CommittedOk(room: Room, c: ClientId, e1: bool)
    requires RoomOk(room, e1) && room.upgrade.Some?
    ensures RoomOk(CommittedRoom(AdvancedRoom(room, c)), e1)
  {
    var committed := CommittedRoom(AdvancedRoom(room, c));
    assert committed.members.Keys == room.members.Keys;
  }

  /** The room after an abort: the joiner is gone and the assignment released. */
  ghost function AbortedRoom(room: Room): Room
    requires room.upgrade.Some?
  {
    WithoutMember(room, room.upgrade.value.joining).(upgrade := None, mode := P2p, instance := None)
  }

  lemma AbortedOk(room: Room, e1: bool)
    requires RoomOk(room, e1) && room.upgrade.Some?
    ensures RoomOk(AbortedRoom(room), e1)
  {
    var joining := room.upgrade.value.joining;
    var rest := room.members - {joining};
    if joining in room.members {
      MemberCounts(room.members, joining, room.members[joining]);
    } else {
      assert rest == room.members;
    }
    if e1 {
      var k :| IsSoleInitiator(room.members, k);
      assert IsSoleInitiator(rest, k);
    }
  }

  // ---- SFU membership ----

  lemma JoinDoneOk(room: Room, e1: bool)
    requires RoomOk(room, e1) && room.pendingJoin.Some?
    ensures RoomOk(room.(pendingJoin := None), e1)
    ensures RoomOk(WithoutMember(room.(pendingJoin := None), room.pendingJoin.value.client), e1)
  {
    WithoutOk(room.(pendingJoin := None), room.pendingJoin.value.client, e1);
  }

  lemma LeaveBegunOk(room: Room, leave: PendingLeave, e1: bool)
    requires RoomOk(room, e1) && room.mode == Sfu
    ensures RoomOk(room.(pendingLeave := Some(leave)), e1)
  {
  }

  lemma LeaveDoneOk(dwell: nat, room: Room, c: ClientId, now: Instant, e1: bool)
    requires RoomOk(room, e1) && room.pendingLeave.Some?
    ensures RoomOk(room.(pendingLeave := None), e1)
    ensures RoomOk(Armed(dwell, WithoutMember(room.(pendingLeave := None), c), now), e1)
  {
    WithoutOk(room.(pendingLeave := None), c, e1);
  }

  lemma DeadlineDroppedOk(room: Room, e1: bool)
    requires RoomOk(room, e1)
    ensures RoomOk(room.(downgradeDeadline := None), e1)
  {
  }

  lemma FailedOk(room: Room)
    requires RoomOk(room, false)
    ensures RoomOk(room.(mode := Failed), false)
  {
  }

  // ---- leaving SFU mode ----

  lemma DowngradedOk(room: Room, e1: bool)
    requires RoomOk(room, e1) && DowngradeEligible(room)
    ensures RoomOk(DowngradedRoom(room), e1)
  {
    assert room.members.Keys != {};
    var room' := DowngradedRoom(room);
    assert room'.members.Keys == room.members.Keys;
    assert |room.members| == |room.members.Keys| && |room'.members| == |room'.members.Keys|;
    assert IsSoleInitiator(room'.members, Least(room.members.Keys));
  }

  lemma ExpiredOk(room: Room, e1: bool)
    requires RoomOk(room, e1) && room.mode != Upgrading
    ensures RoomOk(ExpiredRoom(room), e1)
  {
    if room.pendingJoin.Some? {
      MembersShape(room, room.members - {room.pendingJoin.value.client});
    }
  }
}
