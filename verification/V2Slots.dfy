/** How a room, the commands in flight for it and the workers that host it fit together.
    A view collects what the rest of the table knows about one room. */
module V2Slots {
  import opened Wrappers
  import opened Collections
  import opened Sfu
  import opened V2State
  import opened V2Steps
  import opened V2Moves
  import opened V2Commands

  // ---- views ----

  datatype SlotKind = UpgradeSlot | JoinSlot | LeaveSlot

  ghost predicate InSlot(p: PendingCommand, kind: SlotKind, r: RoomId) {
    match kind
    case UpgradeSlot => p.UpgradeJoin? && p.join.room == r
    case JoinSlot => p.SfuJoin? && p.join.room == r
    case LeaveSlot => p.SfuLeave? && p.room == r
  }

  /** The member transitions of one kind that are in flight for a room. */
  ghost function Slot(pending: map<RequestId, PendingCommand>, kind: SlotKind, r: RoomId)
    : map<RequestId, PendingCommand>
  {
    map q | q in pending && InSlot(pending[q], kind, r) :: pending[q]
  }

  ghost function Hosts(workers: map<InstanceId, Worker>, r: RoomId): set<InstanceId> {
    set i | i in workers && r in workers[i].rooms
  }

  datatype View = View(
    room: Option<Room>,
    upgrades: map<RequestId, PendingCommand>,
    joins: map<RequestId, PendingCommand>,
    leaves: map<RequestId, PendingCommand>,
    hosts: set<InstanceId>)

  ghost function ViewOf(t: Table, r: RoomId): View {
    View(RoomAt(t, r), Slot(t.pending, UpgradeSlot, r), Slot(t.pending, JoinSlot, r), Slot(t.pending, LeaveSlot, r),
         Hosts(t.workers, r))
  }

  // ---- the invariant of a view ----

  type Acks = set<(InstanceId, JoinMember)>

  /** The Join that puts `c` on its worker with its current lifecycle and the room's epoch. */
  ghost function JoinOf(r: RoomId, room: Room, c: ClientId): JoinMember
    requires c in room.members
  {
    JoinMember(r, c, room.members[c].lifecycle, room.assignmentEpoch)
  }

  ghost predicate Acked(acks: Acks, r: RoomId, room: Room, c: ClientId) {
    c in room.members && room.instance.Some? && (room.instance.value, JoinOf(r, room, c)) in acks
  }

  ghost predicate Active(room: Room) {
    room.mode == Upgrading || room.mode == Sfu
  }

  ghost predicate HostsOk(room: Room, hosts: set<InstanceId>) {
    if Active(room) then room.instance.Some? && hosts == {room.instance.value} else hosts == {}
  }

  ghost predicate Only(slot: map<RequestId, PendingCommand>, p: PendingCommand) {
    exists q: RequestId :: slot == map[q := p]
  }

  /** The barrier in progress: the clients in order, the joiner last, the acknowledged ones first. */
  ghost predicate BarrierShape(r: RoomId, room: Room, acks: Acks) {
    && room.instance.Some? && room.upgrade.Some?
    && var upgrade := room.upgrade.value;
    && upgrade.joining in room.members
    && upgrade.ordered == SortedSeq(room.members.Keys - {upgrade.joining}) + [upgrade.joining]
    && upgrade.next < |upgrade.ordered|
    && upgrade.joined == upgrade.ordered[..upgrade.next]
    && (forall c :: c in upgrade.ordered ==> c in room.members)
    && (forall c :: c in upgrade.joined ==> Acked(acks, r, room, c))
  }

  ghost function Awaited(room: Room): ClientId
    requires room.upgrade.Some? && room.upgrade.value.next < |room.upgrade.value.ordered|
  {
    room.upgrade.value.ordered[room.upgrade.value.next]
  }

  ghost predicate UpgradeOk(r: RoomId, room: Room, slot: map<RequestId, PendingCommand>, acks: Acks) {
    if room.mode == Upgrading then
      && BarrierShape(r, room, acks)
      && Only(slot, UpgradeJoin(room.instance.value, JoinOf(r, room, Awaited(room))))
    else slot == map[]
  }

  ghost predicate LeaveOf(r: RoomId, room: Room, p: PendingCommand) {
    && room.pendingLeave.Some? && room.instance.Some?
    && p.SfuLeave? && p.instance == room.instance.value && p.room == r
    && p.client == room.pendingLeave.value.client && p.assignmentEpoch == room.assignmentEpoch
    && (p.client in room.members ==> p.lifecycle == room.members[p.client].lifecycle)
  }

  ghost predicate LeaveOk(r: RoomId, room: Room, slot: map<RequestId, PendingCommand>) {
    if room.pendingLeave.Some? then room.mode == Sfu && exists p :: LeaveOf(r, room, p) && Only(slot, p)
    else slot == map[]
  }

  ghost predicate JoinOk(r: RoomId, room: Room, slot: map<RequestId, PendingCommand>) {
    if room.pendingJoin.Some? then
      && room.mode == Sfu && room.instance.Some? && room.pendingJoin.value.client in room.members
      && Only(slot, SfuJoin(room.instance.value, JoinOf(r, room, room.pendingJoin.value.client)))
    else slot == map[]
  }

  /** What holds of SFU rooms as long as no Leave overtakes a Join of the same client. */
  ghost predicate SfuOk(r: RoomId, room: Room, acks: Acks) {
    && (room.pendingLeave.Some? ==>
          room.pendingLeave.value.client in room.members && !Awaits(room, room.pendingLeave.value.client))
    && (room.mode == Sfu ==>
          forall c :: c in room.members && !Awaits(room, c) ==> Acked(acks, r, room, c))
  }

  ghost predicate SlotOk(r: RoomId, v: View, acks: Acks, e2: bool) {
    match v.room
    case None => v.upgrades == map[] && v.leaves == map[] && v.hosts == {} && (e2 ==> v.joins == map[])
    case Some(room) =>
      && HostsOk(room, v.hosts)
      && UpgradeOk(r, room, v.upgrades, acks)
      && LeaveOk(r, room, v.leaves)
      && (room.pendingJoin.Some? ==> room.mode == Sfu)
      && (e2 ==> JoinOk(r, room, v.joins) && SfuOk(r, room, acks))
  }

  lemma MoreAcks(r: RoomId, v: View, acks: Acks, more: Acks, e2: bool)
    requires SlotOk(r, v, acks, e2) && acks <= more
    ensures SlotOk(r, v, more, e2)
  {
  }

  // ---- views under the primitive changes ----

  ghost function Added(slot: map<RequestId, PendingCommand>, kind: SlotKind, r: RoomId, q: RequestId,
                       p: PendingCommand): map<RequestId, PendingCommand>
  {
    if InSlot(p, kind, r) then slot[q := p] else slot
  }

  ghost function ViewAdding(v: View, r: RoomId, q: RequestId, p: PendingCommand): View {
    v.(upgrades := Added(v.upgrades, UpgradeSlot, r, q, p),
       joins := Added(v.joins, JoinSlot, r, q, p),
       leaves := Added(v.leaves, LeaveSlot, r, q, p))
  }

  ghost function ViewWithout(v: View, qs: set<RequestId>): View {
    v.(upgrades := v.upgrades - qs, joins := v.joins - qs, leaves := v.leaves - qs)
  }

  lemma SlotAdd(pending: map<RequestId, PendingCommand>, kind: SlotKind, r: RoomId, q: RequestId, p: PendingCommand)
    requires q !in pending
    ensures Slot(pending[q := p], kind, r) == Added(Slot(pending, kind, r), kind, r, q, p)
  {
  }

  lemma SlotRemove(pending: map<RequestId, PendingCommand>, kind: SlotKind, r: RoomId, qs: set<RequestId>)
    ensures Slot(pending - qs, kind, r) == Slot(pending, kind, r) - qs
  {
  }

  lemma IssueView(t: Table, i: InstanceId, connection: ConnectionId, kind: CommandKind, p: PendingCommand, s: RoomId)
    requires t.nextRequest !in t.pending
    ensures ViewOf(IssueCommand(t, i, connection, kind, p), s) == ViewAdding(ViewOf(t, s), s, t.nextRequest, p)
  {
    hide Slot, Hosts;
    SlotAdd(t.pending, UpgradeSlot, s, t.nextRequest, p);
    SlotAdd(t.pending, JoinSlot, s, t.nextRequest, p);
    SlotAdd(t.pending, LeaveSlot, s, t.nextRequest, p);
  }

  lemma ForgetView(t: Table, qs: set<RequestId>, s: RoomId)
    ensures ViewOf(Forget(t, qs), s) == ViewWithout(ViewOf(t, s), qs)
  {
    hide Slot, Hosts;
    SlotRemove(t.pending, UpgradeSlot, s, qs);
    SlotRemove(t.pending, JoinSlot, s, qs);
    SlotRemove(t.pending, LeaveSlot, s, qs);
  }

  /** Removing commands that are not member transitions of `s` leaves its view alone. */
  lemma ForgetOthersView(t: Table, qs: set<RequestId>, s: RoomId)
    requires forall q, kind :: q in qs && q in t.pending ==> !InSlot(t.pending[q], kind, s)
    ensures ViewOf(Forget(t, qs), s) == ViewOf(t, s)
  {
    ForgetView(t, qs, s);
    var v := ViewOf(t, s);
    assert v.upgrades - qs == v.upgrades;
    assert v.joins - qs == v.joins;
    assert v.leaves - qs == v.leaves;
  }

  lemma OnlyOne(slot: map<RequestId, PendingCommand>, p: PendingCommand) returns (q: RequestId)
    requires Only(slot, p)
    ensures q in slot && slot[q] == p && forall k :: k in slot ==> k == q
  {
    q :| slot == map[q := p];
  }

  lemma OneGone(slot: map<RequestId, PendingCommand>, p: PendingCommand, q: RequestId)
    requires Only(slot, p) && q in slot
    ensures slot - {q} == map[] && slot[q] == p
  {
  }

  lemma OneAdded(slot: map<RequestId, PendingCommand>, q: RequestId, p: PendingCommand)
    requires slot == map[]
    ensures Only(slot[q := p], p)
  {
    assert slot[q := p] == map[q := p];
  }

  /** The next request id is never in use. */
  lemma FreshRequest(t: Table)
    requires CommandsOk(t)
    ensures t.nextRequest !in t.pending
  {
    forall q | q in t.pending ensures q < t.nextRequest {
      assert q in t.unacked;
      assert IsIssued(t, t.unacked[q]);
    }
  }

  // ---- room changes that a view does not notice ----

  /** Same members, lifecycles and transitions; other member fields may differ. */
  ghost predicate SameSkeleton(a: Room, b: Room) {
    && a.members.Keys == b.members.Keys
    && (forall c :: c in a.members ==> a.members[c].lifecycle == b.members[c].lifecycle)
    && a.mode == b.mode && a.assignmentEpoch == b.assignmentEpoch && a.instance == b.instance
    && a.upgrade == b.upgrade && a.pendingJoin == b.pendingJoin && a.pendingLeave == b.pendingLeave
  }

  lemma SkeletonSlot(r: RoomId, v: View, room: Room, acks: Acks, e2: bool)
    requires SlotOk(r, v, acks, e2) && v.room.Some? && SameSkeleton(v.room.value, room)
    ensures SlotOk(r, v.(room := Some(room)), acks, e2)
  {
    var a := v.room.value;
    assert forall c :: c in a.members ==> JoinOf(r, a, c) == JoinOf(r, room, c);
    assert forall c :: Acked(acks, r, a, c) ==> Acked(acks, r, room, c);
    if a.pendingLeave.Some? {
      var p :| LeaveOf(r, a, p) && Only(v.leaves, p);
      assert LeaveOf(r, room, p);
    }
  }

  /** A room with no transition in flight: P2P or failed. */
  ghost predicate Idle(room: Room) {
    (room.mode == P2p || room.mode == Failed) && room.pendingJoin.None? && room.pendingLeave.None?
  }

  ghost predicate Bare(v: View, e2: bool) {
    v.upgrades == map[] && v.leaves == map[] && v.hosts == {} && (e2 ==> v.joins == map[])
  }

  lemma IdleSlot(r: RoomId, v: View, acks: Acks, e2: bool)
    requires Bare(v, e2) && (v.room.Some? ==> Idle(v.room.value))
    ensures SlotOk(r, v, acks, e2)
  {
  }

  lemma IdleBare(r: RoomId, v: View, acks: Acks, e2: bool)
    requires SlotOk(r, v, acks, e2) && (v.room.Some? ==> Idle(v.room.value))
    ensures Bare(v, e2)
  {
  }
}
