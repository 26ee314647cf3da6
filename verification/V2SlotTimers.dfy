/** Worker expiry, the timeout sweep, and with them every step, keep the slots. */
module V2SlotTimers {
  import opened Wrappers
  import opened Collections
  import opened Sfu
  import opened V2State
  import opened V2Steps
  import opened V2Rooms
  import opened V2Moves
  import opened V2RoomSteps
  import opened V2Commands
  import opened V2Slots
  import opened V2SlotSteps

  ghost predicate AllSlots(t: Table, acks: Acks, e2: bool) {
    forall r: RoomId :: SlotAt(t, r, acks, e2)
  }

  // ---- worker expiry ----

  /** An upgrading room on worker `i` can be aborted without error. */
  ghost predicate Abortable(t: Table, r: RoomId, i: InstanceId) {
    r in t.rooms && t.rooms[r].mode == Upgrading ==>
      && t.rooms[r].upgrade.Some? && t.rooms[r].instance == Some(i)
      && forall c :: c in t.rooms[r].upgrade.value.joined ==> c in AbortedRoom(t.rooms[r]).members
  }

  ghost predicate SameSlots(t: Table, t': Table, s: RoomId) {
    forall kind :: Slot(t'.pending, kind, s) == Slot(t.pending, kind, s)
  }

  /** `t'` is `t` up to the hosts on worker `i`: what expiry may change before it clears the worker. */
  ghost predicate HostsBut(t: Table, t': Table, i: InstanceId, s: RoomId) {
    forall j :: j != i ==> (j in Hosts(t'.workers, s) <==> j in Hosts(t.workers, s))
  }

  lemma ExpireRoomView(t: Table, r: RoomId, i: InstanceId, s: RoomId)
    requires CommandsOk(t) && Abortable(t, r, i)
    ensures var t' := ExpireRoom(t, r);
            && CommandsOk(t') && SameSlots(t, t', s) && HostsBut(t, t', i, s)
            && RoomAt(t', s) == if s == r && r in t.rooms then Some(AfterExpiry(t.rooms[r])) else RoomAt(t, s)
  {
    hide CommandsOk, EmitsFresh, AbortUpgrade, Slot, Hosts, AfterExpiry, AbortedRoom, ExpiredRoom;
    ExpireRoomLog(t, r);
    ExpireRoomRooms(t, r);
    var t' := ExpireRoom(t, r);
    if r in t.rooms && t.rooms[r].mode == Upgrading {
      AbortView(t, r, "WORKER_UNAVAILABLE", s);
      assert ViewOf(t', s).hosts == Hosts(t'.workers, s);
      assert Slot(t'.pending, UpgradeSlot, s) == ViewOf(t', s).upgrades;
      assert Slot(t'.pending, JoinSlot, s) == ViewOf(t', s).joins;
      assert Slot(t'.pending, LeaveSlot, s) == ViewOf(t', s).leaves;
      forall kind ensures Slot(t'.pending, kind, s) == Slot(t.pending, kind, s) {
        match kind { case UpgradeSlot => case JoinSlot => case LeaveSlot => }
      }
    }
  }

  lemma {:induction false} ExpireRoomsView(t: Table, rooms: seq<RoomId>, i: InstanceId, s: RoomId)
    requires CommandsOk(t) && NoDuplicates(rooms)
    requires forall r :: r in rooms ==> Abortable(t, r, i)
    ensures var t' := ExpireRooms(t, rooms);
            && CommandsOk(t') && SameSlots(t, t', s) && HostsBut(t, t', i, s)
            && (s in rooms && s in t.rooms && t.rooms[s].mode == Upgrading ==> t.rooms[s].upgrade.Some?)
            && RoomAt(t', s) == if s in rooms && s in t.rooms then Some(AfterExpiry(t.rooms[s])) else RoomAt(t, s)
    decreases |rooms|
  {
    hide CommandsOk, ExpireRoom, Slot, Hosts, AfterExpiry, AbortedRoom;
    if rooms != [] {
      var r, rest := rooms[0], rooms[1..];
      var t1 := ExpireRoom(t, r);
      assert r in rooms && Abortable(t, r, i);
      ExpireRoomView(t, r, i, s);
      assert rooms == [r] + rest;
      assert r !in rest;
      forall k | k in rest ensures Abortable(t1, k, i) {
        assert k in rooms && Abortable(t, k, i);
        ExpireRoomView(t, r, i, k);
        assert RoomAt(t1, k) == RoomAt(t, k);
      }
      ExpireRoomsView(t1, rest, i, s);
    }
  }

  /** The commands of worker `i` in a slot of a room it does not host, and the other way round. */
  lemma SlotOwners(t: Table, s: RoomId, i: InstanceId, acks: Acks, e2: bool)
    requires CommandsOk(t) && SlotAt(t, s, acks, e2)
    ensures i in Hosts(t.workers, s) ==>
              && Slot(t.pending, UpgradeSlot, s) - CommandsOf(t, i) == map[]
              && Slot(t.pending, LeaveSlot, s) - CommandsOf(t, i) == map[]
              && (e2 ==> Slot(t.pending, JoinSlot, s) - CommandsOf(t, i) == map[])
    ensures i !in Hosts(t.workers, s) ==>
              && Slot(t.pending, UpgradeSlot, s) - CommandsOf(t, i) == Slot(t.pending, UpgradeSlot, s)
              && Slot(t.pending, LeaveSlot, s) - CommandsOf(t, i) == Slot(t.pending, LeaveSlot, s)
              && (e2 ==> Slot(t.pending, JoinSlot, s) - CommandsOf(t, i) == Slot(t.pending, JoinSlot, s))
  {
    forall kind, q | q in Slot(t.pending, kind, s) && (kind == JoinSlot ==> e2)
      ensures q in CommandsOf(t, i) <==> i in Hosts(t.workers, s)
    {
      assert q in t.owners && OwnedBy(t.pending[q], t.owners[q]);
      SlotInstance(t, s, kind, q, acks, e2);
    }
    hide SlotOk, CommandsOk, CommandsOf;
    EmptyOrAll(Slot(t.pending, UpgradeSlot, s), CommandsOf(t, i), i in Hosts(t.workers, s));
    EmptyOrAll(Slot(t.pending, LeaveSlot, s), CommandsOf(t, i), i in Hosts(t.workers, s));
    if e2 { EmptyOrAll(Slot(t.pending, JoinSlot, s), CommandsOf(t, i), i in Hosts(t.workers, s)); }
  }

  lemma EmptyOrAll(slot: map<RequestId, PendingCommand>, qs: set<RequestId>, all: bool)
    requires forall q :: q in slot ==> (q in qs <==> all)
    ensures all ==> slot - qs == map[]
    ensures !all ==> slot - qs == slot
  {
  }

  lemma SlotInstance(t: Table, s: RoomId, kind: SlotKind, q: RequestId, acks: Acks, e2: bool)
    requires SlotAt(t, s, acks, e2) && q in Slot(t.pending, kind, s) && (kind == JoinSlot ==> e2)
    ensures (t.pending[q].UpgradeJoin? || t.pending[q].SfuJoin? || t.pending[q].SfuLeave?)
    ensures Hosts(t.workers, s) == {t.pending[q].instance}
  {
    var slot := Slot(t.pending, kind, s);
    assert slot[q] == t.pending[q];
    assert s in t.rooms;
    var room := t.rooms[s];
    match kind {
      case UpgradeSlot => assert q in ViewOf(t, s).upgrades;
      case JoinSlot => assert q in ViewOf(t, s).joins;
      case LeaveSlot =>
        assert q in ViewOf(t, s).leaves;
        var p :| LeaveOf(s, room, p) && Only(ViewOf(t, s).leaves, p);
    }
  }

  lemma ExpiredSlot(r: RoomId, room: Room, v: View, acks: Acks, e2: bool)
    requires RoomShape(room) && v.room == Some(AfterExpiry(room))
    requires Bare(v, e2)
    ensures SlotOk(r, v, acks, e2)
  {
    IdleSlot(r, v, acks, e2);
  }

  lemma HostedRoom(t: Table, r: RoomId, i: InstanceId, acks: Acks, e2: bool)
    requires SlotAt(t, r, acks, e2) && i in Hosts(t.workers, r) && (r in t.rooms ==> RoomShape(t.rooms[r]))
    ensures r in t.rooms && Active(t.rooms[r]) && t.rooms[r].instance == Some(i) && Abortable(t, r, i)
    ensures Hosts(t.workers, r) == {i}
  {
    if t.rooms[r].mode == Upgrading {
      JoinedMembers(r, t.rooms[r], acks);
    }
  }

  lemma AllAbortable(t: Table, i: InstanceId, rooms: seq<RoomId>, acks: Acks, e2: bool)
    requires AllSlots(t, acks, e2) && RoomsOk(t, true)
    requires i in t.workers && Lists(rooms, t.workers[i].rooms)
    ensures forall r :: r in rooms ==> Abortable(t, r, i)
  {
    hide SlotOk, RoomOk;
    forall r | r in rooms ensures Abortable(t, r, i) {
      assert SlotAt(t, r, acks, e2);
      assert i in Hosts(t.workers, r);
      RoomShapeAt(t, r);
      HostedRoom(t, r, i, acks, e2);
    }
  }

  /** Expiry settles the rooms of the worker, and takes it and its commands out of every view. */
  lemma ExpireWorkerView(t: Table, i: InstanceId, rooms: seq<RoomId>, s: RoomId)
    requires CommandsOk(t) && i in t.workers && Lists(rooms, t.workers[i].rooms)
    requires forall r :: r in rooms ==> Abortable(t, r, i)
    ensures s in rooms && s in t.rooms && t.rooms[s].mode == Upgrading ==> t.rooms[s].upgrade.Some?
    ensures ViewOf(ExpireWorker(t, i, rooms), s)
            == View(if s in rooms && s in t.rooms then Some(AfterExpiry(t.rooms[s])) else RoomAt(t, s),
                    Slot(t.pending, UpgradeSlot, s) - CommandsOf(t, i),
                    Slot(t.pending, JoinSlot, s) - CommandsOf(t, i),
                    Slot(t.pending, LeaveSlot, s) - CommandsOf(t, i),
                    Hosts(t.workers, s) - {i})
  {
    hide CommandsOk;
    var t1 := ExpireRooms(t, rooms);
    var dead := CommandsOf(t1, i);
    var t2 := ExpireWorker(t, i, rooms);
    ExpireRoomsView(t, rooms, i, s);
    ExpireRoomsLog(t, rooms);
    SlotOwnersKept(t, t1, s, i);
    assert Hosts(t2.workers, s) == Hosts(t.workers, s) - {i};
    hide ExpireRooms, AfterExpiry, EmitsFresh, Hosts;
    SlotRemove(t1.pending, UpgradeSlot, s, dead);
    SlotRemove(t1.pending, JoinSlot, s, dead);
    SlotRemove(t1.pending, LeaveSlot, s, dead);
    SameDifference(Slot(t.pending, UpgradeSlot, s), dead, CommandsOf(t, i));
    SameDifference(Slot(t.pending, JoinSlot, s), dead, CommandsOf(t, i));
    SameDifference(Slot(t.pending, LeaveSlot, s), dead, CommandsOf(t, i));
    hide Slot, CommandsOf;
  }

  lemma ExpireWorkerSlots(t: Table, i: InstanceId, rooms: seq<RoomId>, s: RoomId, acks: Acks, e2: bool)
    requires CommandsOk(t) && AllSlots(t, acks, e2) && RoomsOk(t, true)
    requires i in t.workers && Lists(rooms, t.workers[i].rooms)
    ensures SlotAt(ExpireWorker(t, i, rooms), s, acks, e2)
  {
    hide SlotOk, CommandsOk, RoomOk, ExpireWorker, AfterExpiry, RoomShape;
    assert SlotAt(t, s, acks, e2);
    AllAbortable(t, i, rooms, acks, e2);
    ExpireWorkerView(t, i, rooms, s);
    assert i in Hosts(t.workers, s) <==> s in rooms;
    SlotOwners(t, s, i, acks, e2);
    RoomShapeAt(t, s);
    var v := ViewOf(ExpireWorker(t, i, rooms), s);
    if s in rooms {
      HostedRoom(t, s, i, acks, e2);
      hide Slot, Hosts, CommandsOf;
      assert {i} - {i} == {};
      ExpiredSlot(s, t.rooms[s], v, acks, e2);
    } else {
      assert Hosts(t.workers, s) - {i} == Hosts(t.workers, s);
      hide Slot, Hosts, CommandsOf;
      assert v == ViewOf(t, s).(joins := v.joins);
      if !e2 { JoinsUnseen(s, ViewOf(t, s), v, acks); }
    }
  }

  /** Commands that stay in flight keep their owner. */
  lemma SlotOwnersKept(t: Table, t': Table, s: RoomId, i: InstanceId)
    requires CommandsOk(t) && CommandsOk(t') && EmitsFresh(t, t') && SameSlots(t, t', s)
    ensures forall kind, q :: q in Slot(t.pending, kind, s) ==> (q in CommandsOf(t', i) <==> q in CommandsOf(t, i))
  {
    forall kind, q | q in Slot(t.pending, kind, s) ensures q in CommandsOf(t', i) <==> q in CommandsOf(t, i) {
      assert q in Slot(t'.pending, kind, s);
      assert q in t'.pending && q in t'.owners && q in t.owners;
      assert IsIssued(t, t.unacked[q]);
    }
  }

  lemma RoomShapeAt(t: Table, r: RoomId)
    requires RoomsOk(t, true)
    ensures r in t.rooms ==> RoomShape(t.rooms[r])
  {
  }

  lemma SameDifference(slot: map<RequestId, PendingCommand>, a: set<RequestId>, b: set<RequestId>)
    requires forall q :: q in slot ==> (q in a <==> q in b)
    ensures slot - a == slot - b
  {
  }

  // ---- the sweep ----

  lemma DowngradeSlots(t: Table, r: RoomId, order: seq<ClientId>, s: RoomId, acks: Acks, e2: bool)
    requires CommandsOk(t) && SlotAt(t, s, acks, e2) && SlotAt(t, r, acks, e2)
    requires r in t.rooms && DowngradeEligible(t.rooms[r])
    ensures SlotAt(CommitDowngrade(t, r, order), s, acks, e2)
  {
    hide CommandsOk, EmitsFresh, Cleanup, DowngradedRoom, Slot, Hosts;
    var room := t.rooms[r];
    assert HostsOk(room, Hosts(t.workers, r));
    var i := room.instance.value;
    var t1 := PutRoom(t, r, DowngradedRoom(room));
    var t2 := Unassign(t1, r, i, |room.members|);
    QuietLog(t, t2);
    UnassignHosts(t1, r, i, |room.members|, s);
    CleanupView(t2, r, i, order, room.assignmentEpoch, s);
    CleanupFrame(t2, r, i, order, room.assignmentEpoch);
    DowngradeRooms(t, r, order);
    Reroomed2(t, t2, s);
    var t' := CommitDowngrade(t, r, order);
    assert ViewOf(t', s) == ViewOf(t2, s);
    if s == r {
      assert {i} - {i} == {};
      assert Idle(DowngradedRoom(room)) by { DowngradedIdle(room); }
      IdleSlot(r, ViewOf(t', r), acks, e2);
    }
  }

  lemma DowngradedIdle(room: Room)
    requires DowngradeEligible(room)
    ensures Idle(DowngradedRoom(room))
  {
  }

  lemma SweepDowngradeSlots(t: Table, r: RoomId, order: seq<ClientId>, s: RoomId, acks: Acks, e2: bool)
    requires CommandsOk(t) && SlotAt(t, s, acks, e2) && SlotAt(t, r, acks, e2) && r in t.rooms
    ensures SlotAt(SweepDowngrade(t, r, order), s, acks, e2)
  {
    hide SlotAt, CommandsOk, CommitDowngrade;
    if DowngradeEligible(t.rooms[r]) {
      DowngradeSlots(t, r, order, s, acks, e2);
    } else {
      SkeletonSlots(t, PutRoom(t, r, t.rooms[r].(downgradeDeadline := None)), r, s, acks, e2);
    }
  }

  lemma SweepSfuSlots(t: Table, now: Instant, r: RoomId, order: seq<ClientId>, s: RoomId, acks: Acks, e2: bool)
    requires CommandsOk(t) && SlotAt(t, s, acks, e2) && r in t.rooms
    requires e2 ==> SparesJoiner(t, now, r, order)
    ensures SlotAt(SweepSfu(t, now, r, order), s, acks, e2)
  {
    hide SlotAt, CommandsOk, LeaveOrWait, FirstDue;
    var c := FirstDue(t.rooms[r].members, order, now);
    if c.Some? { LeaveOrWaitSlots(t, now, r, c.value, s, acks, e2); }
  }

  lemma SweepP2pSlots(t: Table, now: Instant, r: RoomId, s: RoomId, acks: Acks, e2: bool)
    requires SlotAt(t, s, acks, e2) && r in t.rooms && Idle(t.rooms[r])
    ensures SlotAt(SweepP2p(t, now, r).0, s, acks, e2)
  {
    hide SlotAt, Survivors, DueMembers;
    var room := t.rooms[r];
    var kept := room.(members := room.members - DueMembers(room, now));
    PromoteIdle(kept);
    PutOrReapIdle(t, r, kept, s, acks, e2);
    PutOrReapIdle(t, r, Survivors(kept), s, acks, e2);
    hide PutOrReap, Idle;
  }

  lemma PutOrReapIdle(t: Table, r: RoomId, room: Room, s: RoomId, acks: Acks, e2: bool)
    requires SlotAt(t, s, acks, e2) && r in t.rooms && Idle(t.rooms[r]) && Idle(room)
    ensures SlotAt(PutOrReap(t, r, room), s, acks, e2)
  {
    hide SlotAt;
    IdleSlots(t, PutOrReap(t, r, room), r, s, acks, e2);
  }

  lemma SweepRoomSlots(t: Table, now: Instant, r: RoomId, order: seq<ClientId>, s: RoomId, acks: Acks, e2: bool)
    requires CommandsOk(t) && SlotAt(t, s, acks, e2) && SlotAt(t, r, acks, e2) && OkAt(t, r, true)
    requires e2 ==> SparesJoiner(t, now, r, order)
    ensures SlotAt(SweepRoom(t, now, r, order).0, s, acks, e2)
  {
    hide SlotAt, CommandsOk, SweepDowngrade, SweepSfu, SweepP2p, SparesJoiner, RoomRoles;
    if r in t.rooms {
      SweepDowngradeSlots(t, r, order, s, acks, e2);
      SweepSfuSlots(t, now, r, order, s, acks, e2);
      if t.rooms[r].mode == P2p { SweepP2pSlots(t, now, r, s, acks, e2); }
    }
  }

  /** Sweeping one room leaves the others, and every worker session, as they were. */
  lemma SweepDowngradeElsewhere(t: Table, r: RoomId, order: seq<ClientId>, s: RoomId)
    requires s != r && r in t.rooms
    ensures RoomAt(SweepDowngrade(t, r, order), s) == RoomAt(t, s)
  {
    hide CommitDowngrade;
    if DowngradeEligible(t.rooms[r]) { DowngradeRooms(t, r, order); }
    hide DowngradeEligible, DowngradedRoom;
  }

  lemma SweepSfuElsewhere(t: Table, now: Instant, r: RoomId, order: seq<ClientId>, s: RoomId)
    requires s != r && r in t.rooms
    ensures RoomAt(SweepSfu(t, now, r, order), s) == RoomAt(t, s)
  {
    hide LeaveOrWait, FirstDue;
    var c := FirstDue(t.rooms[r].members, order, now);
    if c.Some? { LeaveOrWaitElsewhere(t, now, r, c.value, s); }
  }

  lemma SweepP2pElsewhere(t: Table, now: Instant, r: RoomId, s: RoomId)
    requires s != r && r in t.rooms
    ensures RoomAt(SweepP2p(t, now, r).0, s) == RoomAt(t, s)
  {
    hide Survivors, DueMembers, PutOrReap, PromotionOf;
    var room := t.rooms[r];
    var kept := room.(members := room.members - DueMembers(room, now));
    PutOrReapElsewhere(t, r, kept, s);
    PutOrReapElsewhere(t, r, Survivors(kept), s);
  }

  lemma SweepRoomElsewhere(t: Table, now: Instant, r: RoomId, order: seq<ClientId>, s: RoomId)
    requires s != r
    ensures RoomAt(SweepRoom(t, now, r, order).0, s) == RoomAt(t, s)
  {
    hide SweepDowngrade, SweepSfu, SweepP2p;
    if r in t.rooms {
      SweepDowngradeElsewhere(t, r, order, s);
      SweepSfuElsewhere(t, now, r, order, s);
      SweepP2pElsewhere(t, now, r, s);
    }
  }

  ghost predicate SameSession(a: Worker, b: Worker) {
    && b.connection == a.connection && b.capacity == a.capacity && b.health == a.health
    && b.seen == a.seen && b.seenOrder == a.seenOrder && b.deadline == a.deadline
  }

  /** The workers differ at most in what they are charged with. */
  ghost predicate SameSessions(t: Table, t': Table) {
    t'.workers.Keys == t.workers.Keys && forall i :: i in t.workers ==> SameSession(t.workers[i], t'.workers[i])
  }

  lemma DowngradeSessions(t: Table, r: RoomId, order: seq<ClientId>)
    requires r in t.rooms && t.rooms[r].members != map[]
    ensures SameSessions(t, CommitDowngrade(t, r, order))
  {
    hide DowngradedRoom, Cleanup;
    var room := t.rooms[r];
    if room.instance.Some? {
      var i := room.instance.value;
      var t1 := PutRoom(t, r, DowngradedRoom(room));
      CleanupFrame(Unassign(t1, r, i, |room.members|), r, i, order, room.assignmentEpoch);
      UnassignSessions(t1, r, i, |room.members|);
    }
  }

  lemma SweepWorkers(t: Table, now: Instant, r: RoomId, order: seq<ClientId>)
    requires r in t.rooms
    ensures SweepSfu(t, now, r, order).workers == t.workers
    ensures SweepP2p(t, now, r).0.workers == t.workers
  {
    hide IssueSfuLeave, FirstDue, Survivors, DueMembers;
    var c := FirstDue(t.rooms[r].members, order, now);
    if c.Some? { LeaveWorkers(t, r, c.value); }
  }

  lemma SweepRoomSessions(t: Table, now: Instant, r: RoomId, order: seq<ClientId>)
    ensures SameSessions(t, SweepRoom(t, now, r, order).0)
  {
    hide CommitDowngrade, SweepSfu, SweepP2p;
    if r in t.rooms {
      SweepWorkers(t, now, r, order);
      if DowngradeEligible(t.rooms[r]) { DowngradeSessions(t, r, order); }
      hide DowngradeEligible;
    }
  }

  lemma LeaveWorkers(t: Table, r: RoomId, c: ClientId)
    ensures IssueSfuLeave(t, r, c, None, Disconnected).Some? ==>
              IssueSfuLeave(t, r, c, None, Disconnected).value.workers == t.workers
  {
  }

  lemma UnassignSessions(t: Table, r: RoomId, i: InstanceId, clients: nat)
    ensures SameSessions(t, Unassign(t, r, i, clients))
  {
  }

  // ---- everything a step relies on, and keeps, under E1 (and E2 when `e2`) ----

  ghost predicate Core(t: Table, acks: Acks, e2: bool) {
    CommandsOk(t) && RoomsOk(t, true) && AllSlots(t, acks, e2)
  }

  ghost predicate ExpireGuard(t: Table, i: InstanceId, rooms: seq<RoomId>) {
    i in t.workers && Lists(rooms, t.workers[i].rooms)
  }

  ghost predicate SweepGuard(t: Table, now: Instant, r: RoomId, order: seq<ClientId>, e2: bool) {
    ListsMembers(t, r, order) && (e2 ==> SparesJoiner(t, now, r, order))
  }

  /** Expiring worker `i` leaves the entries of the other workers alone. */
  ghost predicate OthersKept(t: Table, t': Table, i: InstanceId) {
    t'.workers.Keys == t.workers.Keys && forall j :: j in t.workers && j != i ==> t'.workers[j] == t.workers[j]
  }

  lemma AbortOthers(t: Table, r: RoomId, reason: string, i: InstanceId)
    requires r in t.rooms && t.rooms[r].upgrade.Some? && t.rooms[r].instance == Some(i)
    ensures OthersKept(t, AbortUpgrade(t, r, reason).0, i)
  {
    var room := t.rooms[r];
    CleanupFrame(Unassign(PutRoom(t, r, AbortedRoom(room)), r, i, 3), r, i, room.upgrade.value.joined,
                   room.assignmentEpoch);
    hide Cleanup, AbortedRoom;
  }

  lemma {:induction false} ExpireRoomsOthers(t: Table, rooms: seq<RoomId>, i: InstanceId)
    requires NoDuplicates(rooms) && CommandsOk(t)
    requires forall r :: r in rooms ==> Abortable(t, r, i)
    ensures OthersKept(t, ExpireRooms(t, rooms), i)
    decreases |rooms|
  {
    hide CommandsOk, ExpireRoom, AbortedRoom, AfterExpiry;
    if rooms != [] {
      var r, rest := rooms[0], rooms[1..];
      var t1 := ExpireRoom(t, r);
      assert r in rooms && Abortable(t, r, i);
      ExpireRoomOthers(t, r, i);
      ExpireRoomLog(t, r);
      assert r !in rest;
      forall k | k in rest ensures Abortable(t1, k, i) {
        assert k in rooms && Abortable(t, k, i);
        ExpireRoomView(t, r, i, k);
        assert RoomAt(t1, k) == RoomAt(t, k);
      }
      ExpireRoomsOthers(t1, rest, i);
    }
  }

  lemma ExpireRoomOthers(t: Table, r: RoomId, i: InstanceId)
    requires Abortable(t, r, i)
    ensures OthersKept(t, ExpireRoom(t, r), i)
  {
    hide AbortUpgrade;
    if r in t.rooms && t.rooms[r].mode == Upgrading {
      AbortOthers(t, r, "WORKER_UNAVAILABLE", i);
    }
  }

  lemma ExpireWorkerCore(t: Table, i: InstanceId, rooms: seq<RoomId>, acks: Acks, e2: bool)
    requires Core(t, acks, e2) && ExpireGuard(t, i, rooms)
    ensures Core(ExpireWorker(t, i, rooms), acks, e2)
    ensures OthersKept(t, ExpireWorker(t, i, rooms), i)
  {
    var t' := ExpireWorker(t, i, rooms);
    ExpireWorkerLog(t, i, rooms);
    AllAbortable(t, i, rooms, acks, e2);
    ExpireRoomsOthers(t, rooms, i);
    assert OthersKept(t, t', i);
    ExpiryShapes(t, [i], map[i := rooms], true);
    OneExpiry(t, i, rooms);
    hide CommandsOk, RoomOk, SlotAt, ExpireWorker, EmitsFresh, Abortable;
    forall s: RoomId ensures SlotAt(t', s, acks, e2) {
      ExpireWorkerSlots(t, i, rooms, s, acks, e2);
    }
  }

  lemma OneExpiry(t: Table, i: InstanceId, rooms: seq<RoomId>)
    ensures ExpireWorkers(t, [i], map[i := rooms]) == ExpireWorker(t, i, rooms)
  {
    hide ExpireWorker;
    assert [i][1..] == [];
  }

  /** What expiring one worker keeps, expiring them all keeps. */
  lemma {:induction false} ExpireWorkersKeep(inv: Table -> bool, t: Table, workers: seq<InstanceId>,
                                             hosted: map<InstanceId, seq<RoomId>>, acks: Acks, e2: bool)
    requires Core(t, acks, e2) && inv(t) && ExpiryOrders(t, workers, hosted)
    requires forall t0: Table, i, rooms :: Core(t0, acks, e2) && inv(t0) && ExpireGuard(t0, i, rooms) ==>
               inv(ExpireWorker(t0, i, rooms))
    ensures var t' := ExpireWorkers(t, workers, hosted); Core(t', acks, e2) && inv(t')
    decreases |workers|
  {
    hide Core, ExpireWorker, Lists;
    if workers != [] {
      var i := workers[0];
      var rooms := Listing(hosted, i);
      ExpireWorkerCore(t, i, rooms, acks, e2);
      ExpireWorkersKeep(inv, ExpireWorker(t, i, rooms), workers[1..], hosted, acks, e2);
    }
  }

  lemma SweepRoomCore(t: Table, now: Instant, r: RoomId, order: seq<ClientId>, acks: Acks, e2: bool)
    requires Core(t, acks, e2) && SweepGuard(t, now, r, order, e2)
    ensures Core(SweepRoom(t, now, r, order).0, acks, e2)
  {
    hide CommandsOk, RoomOk, SlotAt, SweepRoom, EmitsFresh;
    var t' := SweepRoom(t, now, r, order).0;
    SweepRoomLog(t, now, r, order);
    SweepRoomShapes(t, now, r, order, true);
    forall s: RoomId ensures SlotAt(t', s, acks, e2) {
      SweepRoomSlots(t, now, r, order, s, acks, e2);
    }
  }

  ghost predicate SweepReady(t: Table, now: Instant, rooms: seq<RoomId>, members: map<RoomId, seq<ClientId>>, e2: bool) {
    NoDuplicates(rooms) && forall r :: r in rooms ==> SweepGuard(t, now, r, Listing(members, r), e2)
  }

  lemma GuardKept(t: Table, t': Table, now: Instant, r: RoomId, order: seq<ClientId>, e2: bool)
    requires SweepGuard(t, now, r, order, e2) && RoomAt(t', r) == RoomAt(t, r) && SameSessions(t, t')
    ensures SweepGuard(t', now, r, order, e2)
  {
    hide Lists, FirstDue;
  }

  /** What sweeping one room keeps, a whole sweep keeps. */
  lemma {:induction false} SweepRoomsKeep(inv: Table -> bool, t: Table, now: Instant, rooms: seq<RoomId>,
                                          members: map<RoomId, seq<ClientId>>, acks: Acks, e2: bool)
    requires Core(t, acks, e2) && inv(t) && SweepReady(t, now, rooms, members, e2)
    requires forall t0: Table, r, order :: Core(t0, acks, e2) && inv(t0) && SweepGuard(t0, now, r, order, e2) ==>
               inv(SweepRoom(t0, now, r, order).0)
    ensures var t' := SweepRooms(t, now, rooms, members).0; Core(t', acks, e2) && inv(t')
    decreases |rooms|
  {
    hide Core, SweepRoom, SweepGuard;
    if rooms != [] {
      var r, rest := rooms[0], rooms[1..];
      var order := Listing(members, r);
      var t1 := SweepRoom(t, now, r, order).0;
      assert r in rooms;
      SweepRoomCore(t, now, r, order, acks, e2);
      SweepRoomSessions(t, now, r, order);
      forall k | k in rest ensures SweepGuard(t1, now, k, Listing(members, k), e2) {
        assert k in rooms && k != r;
        SweepRoomElsewhere(t, now, r, order, k);
        GuardKept(t, t1, now, k, Listing(members, k), e2);
      }
      SweepRoomsKeep(inv, t1, now, rest, members, acks, e2);
    }
  }

  /** What expiring a worker and sweeping a room keep, a timeout keeps. */
  lemma TimeoutKeeps(inv: Table -> bool, t: Table, now: Instant, s: Schedule, acks: Acks, e2: bool)
    requires Core(t, acks, e2) && inv(t) && TimeoutOrders(t, now, s)
    requires e2 ==> !LeavesJoiner(t, TimeoutStep(now, s))
    requires forall t0: Table, i, rooms :: Core(t0, acks, e2) && inv(t0) && ExpireGuard(t0, i, rooms) ==>
               inv(ExpireWorker(t0, i, rooms))
    requires forall t0: Table, r, order :: Core(t0, acks, e2) && inv(t0) && SweepGuard(t0, now, r, order, e2) ==>
               inv(SweepRoom(t0, now, r, order).0)
    ensures var t' := HandleTimeout(t, now, s).0; Core(t', acks, e2) && inv(t')
  {
    hide Core, SweepRooms, ExpireWorkers, SparesJoiner;
    ExpireWorkersKeep(inv, t, s.workers, s.hosted, acks, e2);
    var mid := ExpireWorkers(t, s.workers, s.hosted);
    assert SweepReady(mid, now, s.rooms, s.members, e2);
    SweepRoomsKeep(inv, mid, now, s.rooms, s.members, acks, e2);
  }

  // ---- command results ----

  /** The result acknowledges the Join it answers: MemberJoined, from the worker it was sent to. */
  ghost predicate Acknowledges(p: PendingCommand, i: InstanceId, result: CommandResult) {
    (p.UpgradeJoin? || p.SfuJoin?) && p.instance == i && Joined(result, p.join)
  }

  /** The acknowledged Joins after a step. */
  ghost function AcksAfter(t: Table, acks: Acks, step: Step): Acks {
    match step
    case ResultStep(connection, i, result, _) =>
      if i in t.workers && t.workers[i].connection == Some(connection) && result.id in t.pending
         && Acknowledges(t.pending[result.id], i, result)
      then acks + {(i, t.pending[result.id].join)} else acks
    case _ => acks
  }

  lemma SyncSlots(t: Table, connection: ConnectionId, i: InstanceId, q: RequestId, result: CommandResult,
                  s: RoomId, acks: Acks, e2: bool)
    requires SlotAt(t, s, acks, e2) && q in t.pending && t.pending[q].SyncPending?
    requires t.pending[q].instance == i && Synced(result, t.pending[q].room, t.pending[q].assignmentEpoch)
    ensures SlotAt(SyncResult(Forget(t, {q}), connection, i, t.pending[q], result).0, s, acks, e2)
  {
    hide SlotOk, Slot, Hosts;
    var t1 := Forget(t, {q});
    ForgetOthersView(t, {q}, s);
    PushCommandsKeeps(t1, connection, t.pending[q].replay);
    Reroomed(t1, SyncResult(t1, connection, i, t.pending[q], result).0, s);
  }

  lemma SideResultSlots(t: Table, q: RequestId, s: RoomId, acks: Acks, e2: bool)
    requires SlotAt(t, s, acks, e2) && q in t.pending && (t.pending[q].SignalPending? || t.pending[q].CleanupPending?)
    ensures SlotAt(Forget(t, {q}), s, acks, e2)
  {
    hide SlotOk, ViewOf;
    ForgetOthersView(t, {q}, s);
  }

  lemma ResultSlots(t: Table, connection: ConnectionId, i: InstanceId, result: CommandResult, now: Instant,
                    s: RoomId, acks: Acks, e2: bool)
    requires Core(t, acks, e2)
    requires !ReachesFailRoom(t, ResultStep(connection, i, result, now))
    ensures var step := ResultStep(connection, i, result, now);
            SlotAt(HandleResult(t, connection, i, result, now).0, s, AcksAfter(t, acks, step), e2)
  {
    hide CommandsOk, RoomOk, SlotOk, ViewOf, SyncResult, UpgradeJoinResult, SfuJoinResult, SfuLeaveResult, Forget;
    var more := AcksAfter(t, acks, ResultStep(connection, i, result, now));
    assert SlotAt(t, s, more, e2) by {
      assert SlotAt(t, s, acks, e2);
      MoreAcks(s, ViewOf(t, s), acks, more, e2);
    }
    if i in t.workers && t.workers[i].connection == Some(connection) && result.id in t.pending {
      var q := result.id;
      match t.pending[q] {
        case SyncPending(_, _, _, _) => SyncSlots(t, connection, i, q, result, s, more, e2);
        case UpgradeJoin(_, join) =>
          assert SlotAt(t, join.room, more, e2) by {
            assert SlotAt(t, join.room, acks, e2);
            MoreAcks(join.room, ViewOf(t, join.room), acks, more, e2);
          }
          UpgradeJoinSlots(t, q, i, result, s, more, e2);
        case SfuJoin(_, join) =>
          if e2 {
            assert SlotAt(t, join.room, more, e2) by {
              assert SlotAt(t, join.room, acks, e2);
              MoreAcks(join.room, ViewOf(t, join.room), acks, more, e2);
            }
            SfuJoinSlots(t, q, i, result, s, more);
          } else {
            SfuJoinSlotsE1(t, q, i, result, s, more);
          }
        case SfuLeave(_, r, _, _, _) =>
          assert SlotAt(t, r, more, e2) by {
            assert SlotAt(t, r, acks, e2);
            MoreAcks(r, ViewOf(t, r), acks, more, e2);
          }
          SfuLeaveSlots(t, q, i, result, now, s, more, e2);
        case SignalPending => SideResultSlots(t, q, s, more, e2);
        case CleanupPending => SideResultSlots(t, q, s, more, e2);
      }
    }
  }

  // ---- all steps ----

  lemma LostSlots(t: Table, connection: ConnectionId, i: InstanceId, now: Instant, s: RoomId)
    ensures ViewOf(LoseWorker(t, connection, i, now), s) == ViewOf(t, s)
  {
    var t' := LoseWorker(t, connection, i, now);
    assert Hosts(t'.workers, s) == Hosts(t.workers, s);
    Reroomed(t, t', s);
  }

  lemma PollSlots(t: Table, s: RoomId)
    ensures ViewOf(PollAction(t), s) == ViewOf(t, s)
  {
    Reroomed(t, PollAction(t), s);
  }

  /** The steps other than timeouts, seen from one room. */
  lemma StepSlots(t: Table, step: Step, s: RoomId, acks: Acks, e2: bool)
    requires Core(t, acks, e2) && !step.TimeoutStep?
    requires !ReachesFailRoom(t, step) && (e2 ==> !LeavesJoiner(t, step))
    ensures SlotAt(Apply(t, step), s, AcksAfter(t, acks, step), e2)
  {
    hide CommandsOk, RoomOk, SlotOk, ViewOf, Admit, Register, Deregister, Send, Remove, HandleResult, HandleEvent,
         RegisterWorker, LoseWorker, PollAction;
    assert SlotAt(t, s, acks, e2);
    match step {
      case AdmitStep(ticket, now, r, c, token) =>
        RoomShapeAt(t, r);
        AdmitSlots(t, ticket, now, r, c, token, s, acks, e2);
      case RegisterStep(r, c, token, order) => RegisterSlots(t, r, c, token, order, s, acks, e2);
      case DeregisterStep(now, r, c) => DeregisterSlots(t, now, r, c, s, acks, e2);
      case SendStep(r, c, epoch, message, order) => SendSlots(t, r, c, epoch, message, order, s, acks, e2);
      case RemoveStep(ticket, r, c, token) => RemoveSlots(t, ticket, r, c, token, s, acks, e2);
      case WorkerStep(connection, i, request, capacity, rooms, commands) =>
        RegisterWorkerSlots(t, connection, i, request, capacity, rooms, commands, s, acks, e2);
      case ResultStep(connection, i, result, now) => ResultSlots(t, connection, i, result, now, s, acks, e2);
      case EventStep(connection, i, event) => EventSlots(t, connection, i, event, s, acks, e2);
      case LostStep(connection, i, now) => LostSlots(t, connection, i, now, s);
      case PollStep => PollSlots(t, s);
    }
  }

  /** Every tame step keeps rooms, commands and hosts in step, with the acknowledgements so far. */
  lemma StepCore(t: Table, step: Step, acks: Acks, e2: bool)
    requires Core(t, acks, e2) && ProperOrders(t, step)
    requires !ReachesFailRoom(t, step) && (e2 ==> !LeavesJoiner(t, step))
    ensures Core(Apply(t, step), AcksAfter(t, acks, step), e2)
  {
    if step.TimeoutStep? {
      TimeoutKeeps(_ => true, t, step.now, step.schedule, acks, e2);
    } else {
      StepLog(t, step);
      StepKeepsRooms(t, step, true);
      hide CommandsOk, RoomOk, SlotAt, Apply, EmitsFresh, ProperOrders, ReachesFailRoom, LeavesJoiner, AcksAfter;
      forall s: RoomId ensures SlotAt(Apply(t, step), s, AcksAfter(t, acks, step), e2) {
        StepSlots(t, step, s, acks, e2);
      }
    }
  }
}
