/** Every step, seen from one room: a timeout settles it if its worker expires, then sweeps it once; the results of an
    SFU Join and Leave end it; other steps make ordinary moves. */
module V2RoomViews {
  import opened Wrappers
  import opened Collections
  import opened Sfu
  import opened V2State
  import opened V2Steps
  import opened V2Rooms
  import opened V2Moves
  import opened V2RoomSteps
  import opened V2Commands
  import opened V2Slots
  import opened V2SlotSteps
  import opened V2SlotTimers

  // ---- worker expiry ----

  /** The worker that hosts room `r` is among `workers`. */
  ghost predicate HostIn(t: Table, workers: seq<InstanceId>, r: RoomId) {
    r in t.rooms && Active(t.rooms[r]) && t.rooms[r].instance.Some? && t.rooms[r].instance.value in workers
  }

  lemma Hosted(t: Table, r: RoomId, i: InstanceId, rooms: seq<RoomId>, acks: Acks, e2: bool)
    requires SlotAt(t, r, acks, e2) && ExpireGuard(t, i, rooms) && (r in t.rooms ==> RoomShape(t.rooms[r]))
    ensures r in rooms <==> HostIn(t, [i], r)
    ensures r in rooms ==> !Active(AfterExpiry(t.rooms[r]))
  {
    hide AfterExpiry;
    assert r in rooms <==> i in Hosts(t.workers, r);
    if r in rooms { AfterExpiryMode(t.rooms[r]); }
  }

  /** Expiry settles, once, exactly the rooms whose worker expires. */
  lemma {:induction false} ExpiredRooms(t: Table, workers: seq<InstanceId>, hosted: map<InstanceId, seq<RoomId>>,
                                        r: RoomId, acks: Acks, e2: bool)
    requires Core(t, acks, e2) && ExpiryOrders(t, workers, hosted)
    ensures HostIn(t, workers, r) ==> (t.rooms[r].mode == Upgrading ==> t.rooms[r].upgrade.Some?)
    ensures RoomAt(ExpireWorkers(t, workers, hosted), r)
            == if HostIn(t, workers, r) then Some(AfterExpiry(t.rooms[r])) else RoomAt(t, r)
    decreases |workers|
  {
    hide CommandsOk, RoomOk, SlotAt, ExpireWorker, AfterExpiry, Abortable;
    if workers != [] {
      var i, rest := workers[0], workers[1..];
      var rooms := Listing(hosted, i);
      assert SlotAt(t, r, acks, e2);
      RoomShapeAt(t, r);
      AllAbortable(t, i, rooms, acks, e2);
      Hosted(t, r, i, rooms, acks, e2);
      ExpireWorkerView(t, i, rooms, r);
      ExpireWorkerCore(t, i, rooms, acks, e2);
      hide Core, RoomShape, Lists, Slot, Hosts;
      ExpiredRooms(ExpireWorker(t, i, rooms), rest, hosted, r, acks, e2);
      assert forall w :: w in workers <==> w == i || w in rest;
    }
  }

  // ---- the sweep ----

  /** What a sweep makes of a room: a downgrade or the end of the dwell when that is due, a retried Leave or a new
      deadline in SFU mode, the end of the members due in P2P mode. */
  ghost predicate SweptTo(room: Room, b: Option<Room>, now: Instant, order: seq<ClientId>, grace: nat) {
    var due, c := DueMembers(room, now), FirstDue(room.members, order, now);
    if Due(room.downgradeDeadline, now) then
      b == Some(if DowngradeEligible(room) then DowngradedRoom(room) else room.(downgradeDeadline := None))
    else if room.mode == P2p then
      b == Remaining(if due == {} then room else Survivors(room.(members := room.members - due)))
    else if room.mode != Sfu || room.pendingLeave.Some? || c.None? then b == Some(room)
    else
      || b == Some(room.(pendingLeave := Some(PendingLeave(None, c.value))))
      || (c.value in room.members
          && b == Some(WithMember(room, c.value, room.members[c.value].(deadline := Some(now + grace)))))
  }

  lemma LeaveOrWaitRoom(t: Table, now: Instant, r: RoomId, c: ClientId)
    requires r in t.rooms && c in t.rooms[r].members && t.rooms[r].mode == Sfu && t.rooms[r].pendingLeave.None?
    ensures var room, b := t.rooms[r], RoomAt(LeaveOrWait(t, now, r, c), r);
            || b == Some(room.(pendingLeave := Some(PendingLeave(None, c))))
            || b == Some(WithMember(room, c, room.members[c].(deadline := Some(now + t.grace))))
  {
  }

  lemma SweepDowngradeIs(t: Table, r: RoomId, order: seq<ClientId>)
    requires r in t.rooms
    ensures var room := t.rooms[r];
            RoomAt(SweepDowngrade(t, r, order), r)
            == Some(if DowngradeEligible(room) then DowngradedRoom(room) else room.(downgradeDeadline := None))
  {
    hide CommitDowngrade, DowngradedRoom;
    if DowngradeEligible(t.rooms[r]) { DowngradeRooms(t, r, order); }
  }

  lemma SweepP2pIs(t: Table, now: Instant, r: RoomId)
    requires r in t.rooms
    ensures var room := t.rooms[r];
            var due := DueMembers(room, now);
            RoomAt(SweepP2p(t, now, r).0, r)
            == Remaining(if due == {} then room else Survivors(room.(members := room.members - due)))
  {
    hide PutOrReap, Survivors, PromotionOf, DueMembers;
    var room := t.rooms[r];
    var kept := room.(members := room.members - DueMembers(room, now));
    assert DueMembers(room, now) == {} ==> kept == room by { assert room.members - {} == room.members; }
    PutOrReapAt(t, r, kept);
    PutOrReapAt(t, r, Survivors(kept));
  }

  lemma SweepSfuIs(t: Table, now: Instant, r: RoomId, order: seq<ClientId>)
    requires r in t.rooms && t.rooms[r].mode == Sfu && !Due(t.rooms[r].downgradeDeadline, now)
    ensures SweptTo(t.rooms[r], RoomAt(SweepSfu(t, now, r, order), r), now, order, t.grace)
  {
    hide LeaveOrWait, FirstDue, DueMembers;
    var room := t.rooms[r];
    FirstDueFacts(room.members, order, now);
    var c := FirstDue(room.members, order, now);
    if c.Some? && room.pendingLeave.None? { LeaveOrWaitRoom(t, now, r, c.value); }
  }

  lemma SweepIs(t: Table, now: Instant, r: RoomId, order: seq<ClientId>)
    requires r in t.rooms
    ensures SweptTo(t.rooms[r], RoomAt(SweepRoom(t, now, r, order).0, r), now, order, t.grace)
  {
    hide SweepDowngrade, SweepSfu, SweepP2p, FirstDue, DueMembers, DowngradeEligible, DowngradedRoom, Survivors, Remaining,
         WithMember;
    if Due(t.rooms[r].downgradeDeadline, now) { SweepDowngradeIs(t, r, order); }
    else if t.rooms[r].mode == Sfu { SweepSfuIs(t, now, r, order); }
    else if t.rooms[r].mode == P2p { SweepP2pIs(t, now, r); }
  }

  /** A sweep of all rooms comes to one sweep of each: that of `r` finds the room as it was. */
  lemma {:induction false} SweepsOnce(t: Table, now: Instant, rooms: seq<RoomId>, members: map<RoomId, seq<ClientId>>,
                                      r: RoomId) returns (t1: Table)
    requires NoDuplicates(rooms) && (r in t.rooms ==> r in rooms)
    ensures RoomAt(t1, r) == RoomAt(t, r)
    ensures RoomAt(SweepRooms(t, now, rooms, members).0, r) == RoomAt(SweepRoom(t1, now, r, Listing(members, r)).0, r)
    decreases |rooms|
  {
    hide SweepRoom;
    t1 := t;
    if rooms == [] {
      AbsentSwept(t, now, r, Listing(members, r));
    } else {
      var s, rest := rooms[0], rooms[1..];
      var swept := SweepRoom(t, now, s, Listing(members, s)).0;
      if s == r {
        assert r !in rest;
        RestElsewhere(swept, now, rest, members, r);
      } else {
        SweepRoomElsewhere(t, now, s, Listing(members, s), r);
        assert r in rooms ==> r in rest;
        t1 := SweepsOnce(swept, now, rest, members, r);
      }
    }
  }

  lemma AbsentSwept(t: Table, now: Instant, r: RoomId, order: seq<ClientId>)
    requires r !in t.rooms
    ensures SweepRoom(t, now, r, order).0 == t
  {
  }

  lemma {:induction false} RestElsewhere(t: Table, now: Instant, rooms: seq<RoomId>, members: map<RoomId, seq<ClientId>>,
                                         r: RoomId)
    requires r !in rooms
    ensures RoomAt(SweepRooms(t, now, rooms, members).0, r) == RoomAt(t, r)
    decreases |rooms|
  {
    hide SweepRoom;
    if rooms != [] {
      assert rooms[0] in rooms;
      SweepRoomElsewhere(t, now, rooms[0], Listing(members, rooms[0]), r);
      RestElsewhere(SweepRoom(t, now, rooms[0], Listing(members, rooms[0])).0, now, rooms[1..], members, r);
    }
  }

  /** A timeout finds the room settled if its worker expires, or else as it was, and sweeps it. */
  lemma TimeoutAt(t: Table, step: Step, r: RoomId, acks: Acks, e2: bool) returns (found: Option<Room>, grace: nat)
    requires Core(t, acks, e2) && step.TimeoutStep? && ProperOrders(t, step)
    ensures HostIn(t, step.schedule.workers, r) ==>
              && (t.rooms[r].mode == Upgrading ==> t.rooms[r].upgrade.Some?)
              && found == Some(AfterExpiry(t.rooms[r]))
    ensures !HostIn(t, step.schedule.workers, r) ==> found == RoomAt(t, r)
    ensures var b := RoomAt(Apply(t, step), r);
            if found.None? then b.None? else SweptTo(found.value, b, step.now, Listing(step.schedule.members, r), grace)
  {
    hide Core, ExpireWorkers, SweepRooms, SweepRoom, SweptTo, AfterExpiry;
    var s, now := step.schedule, step.now;
    ExpiredRooms(t, s.workers, s.hosted, r, acks, e2);
    var mid := ExpireWorkers(t, s.workers, s.hosted);
    var t1 := SweepsOnce(mid, now, s.rooms, s.members, r);
    found := RoomAt(mid, r);
    grace := t1.grace;
    if r in t1.rooms {
      SweepIs(t1, now, r, Listing(s.members, r));
    } else {
      AbsentSwept(t1, now, r, Listing(s.members, r));
    }
  }

  /** A sweep neither fails a room nor brings a failed one back. */
  lemma SweptFails(room: Room, b: Option<Room>, now: Instant, order: seq<ClientId>, grace: nat)
    requires SweptTo(room, b, now, order, grace)
    ensures room.mode == Failed ==> b.Some? && b.value == room.(downgradeDeadline := b.value.downgradeDeadline)
    ensures b.Some? && b.value.mode == Failed ==> room.mode == Failed
  {
    hide Survivors, DueMembers, FirstDue;
    SurvivorsSame(room.(members := room.members - DueMembers(room, now)));
  }

  lemma SurvivorsSame(room: Room)
    ensures Survivors(room).mode == room.mode && Survivors(room).signalEpoch == room.signalEpoch
    ensures Survivors(room).members.Keys == room.members.Keys
  {
  }

  lemma ExpiredSame(room: Room)
    ensures ExpiredRoom(room).mode == Failed && ExpiredRoom(room).signalEpoch == room.signalEpoch
    ensures ExpiredRoom(room).members.Keys <= room.members.Keys
  {
  }

  // ---- command results ----

  /** From its connection, a worker answers a command in flight. */
  ghost predicate Answers(t: Table, step: Step) {
    && step.ResultStep? && step.instance in t.workers && t.workers[step.instance].connection == Some(step.connection)
    && step.result.id in t.pending
  }

  /** The step ends the Join in flight for a newcomer of room `r`. */
  ghost predicate EndsJoin(t: Table, step: Step, r: RoomId) {
    && Answers(t, step) && t.pending[step.result.id].SfuJoin? && t.pending[step.result.id].join.room == r
    && r in t.rooms && t.rooms[r].pendingJoin.Some?
  }

  ghost predicate JoinAccepted(t: Table, step: Step)
    requires Answers(t, step) && t.pending[step.result.id].SfuJoin?
  {
    t.pending[step.result.id].instance == step.instance && Joined(step.result, t.pending[step.result.id].join)
  }

  /** The step ends the Leave in flight for a member of room `r`. */
  ghost predicate EndsLeave(t: Table, step: Step, r: RoomId) {
    && Answers(t, step) && t.pending[step.result.id].SfuLeave? && t.pending[step.result.id].room == r
    && r in t.rooms && t.rooms[r].pendingLeave.Some?
  }

  ghost predicate LeaveSucceeds(t: Table, step: Step)
    requires Answers(t, step) && t.pending[step.result.id].SfuLeave?
  {
    t.pending[step.result.id].instance == step.instance && Left(step.result, t.pending[step.result.id])
  }

  /** The members after a Join has ended: a rejected newcomer is gone. */
  ghost function LeftBehind(room: Room, accepted: bool): map<ClientId, Member>
    requires room.pendingJoin.Some?
  {
    if accepted then room.members else room.members - {room.pendingJoin.value.client}
  }

  lemma JoinEndIs(t: Table, step: Step, r: RoomId)
    requires EndsJoin(t, step, r)
    ensures RoomAt(Apply(t, step), r)
            == Some(t.rooms[r].(pendingJoin := None, members := LeftBehind(t.rooms[r], JoinAccepted(t, step))))
  {
    hide SfuJoinResult, Joined;
    JoinResultRooms(Forget(t, {step.result.id}), step.instance, t.pending[step.result.id], step.result);
  }

  lemma LeaveEndIs(t: Table, step: Step, r: RoomId)
    requires EndsLeave(t, step, r)
    ensures var room := t.rooms[r].(pendingLeave := None);
            RoomAt(Apply(t, step), r)
            == if LeaveSucceeds(t, step)
               then Remaining(Armed(t.dwell, WithoutMember(room, t.pending[step.result.id].client), step.now))
               else Some(room)
  {
    hide SfuLeaveResult, Left, Armed;
    var p := t.pending[step.result.id];
    LeaveResultRooms(Forget(t, {step.result.id}), step.instance, p, step.result, step.now);
    ArmedMembers(t.dwell, WithoutMember(t.rooms[r].(pendingLeave := None), p.client), step.now);
  }

  /** The Leave in flight for a room is the one its record names. */
  lemma LeaveNamed(t: Table, step: Step, r: RoomId, acks: Acks, e2: bool)
    requires SlotAt(t, r, acks, e2) && Answers(t, step)
    requires t.pending[step.result.id].SfuLeave? && t.pending[step.result.id].room == r
    ensures EndsLeave(t, step, r) && t.pending[step.result.id].client == t.rooms[r].pendingLeave.value.client
    ensures e2 ==> SfuOk(r, t.rooms[r], acks)
  {
    var q := step.result.id;
    var slot := Slot(t.pending, LeaveSlot, r);
    assert q in slot && ViewOf(t, r).leaves == slot;
    var room := t.rooms[r];
    var p :| LeaveOf(r, room, p) && Only(slot, p);
    assert slot[q] == p;
  }

  lemma ResultElsewhere(t: Table, i: InstanceId, p: PendingCommand, result: CommandResult, now: Instant, r: RoomId)
    requires p.SfuJoin? ==> !(p.join.room == r && r in t.rooms && t.rooms[r].pendingJoin.Some?)
    requires p.SfuLeave? ==> !(p.room == r && r in t.rooms && t.rooms[r].pendingLeave.Some?)
    ensures p.SfuJoin? ==> RoomAt(SfuJoinResult(t, i, p, result).0, r) == RoomAt(t, r)
    ensures p.SfuLeave? ==> RoomAt(SfuLeaveResult(t, i, p, result, now).0, r) == RoomAt(t, r)
  {
    hide Joined, Left, Armed;
    if p.SfuJoin? && p.join.room in t.rooms && t.rooms[p.join.room].pendingJoin.Some? { JoinResultRooms(t, i, p, result); }
    if p.SfuLeave? && p.room in t.rooms && t.rooms[p.room].pendingLeave.Some? { LeaveResultRooms(t, i, p, result, now); }
  }

  lemma ArmedSame(dwell: nat, room: Room, now: Instant)
    ensures Armed(dwell, room, now) == room.(downgradeDeadline := Armed(dwell, room, now).downgradeDeadline)
  {
  }

  // ---- the other steps ----

  /** The moves of a step that is no timeout, ends no Join or Leave of the room, and fails no room by force. */
  ghost predicate Ordinary(m: Move) {
    || m.Created? || m.Paired? || m.UpgradeBegun? || m.JoinBegun? || m.MemberRegistered? || m.MemberDeregistered?
    || m.GraceSet? || m.MessageQueued? || m.Departed? || m.LeaveBegun? || m.BarrierAdvanced? || m.UpgradeCommitted?
    || m.UpgradeAborted?
  }

  ghost predicate Ordinaries(trail: seq<Move>) {
    forall m :: m in trail ==> Ordinary(m)
  }

  lemma ResultMoves(t: Table, step: Step, r: RoomId) returns (trail: seq<Move>)
    requires RoomsOk(t, false) && step.ResultStep? && !ReachesFailRoom(t, step)
    requires !EndsJoin(t, step, r) && !EndsLeave(t, step, r)
    ensures Follows(RoomAt(t, r), trail, RoomAt(Apply(t, step), r)) && Ordinaries(trail) && AllMade(step, trail)
  {
    trail := [];
    if Answers(t, step) {
      assert OkAt(t, r, false);
      hide RoomOk, RoomsOk;
      AnswerIs(t, step);
      trail := AnswerMoves(t, step, r);
      hide Apply;
    }
  }

  /** What handling the answer does once the command is out of flight. */
  ghost function Answered(t: Table, i: InstanceId, connection: ConnectionId, p: PendingCommand, result: CommandResult,
                          now: Instant): Table
  {
    match p
    case SyncPending(_, _, _, _) => SyncResult(t, connection, i, p, result).0
    case UpgradeJoin(_, _) => UpgradeJoinResult(t, i, p, result).0
    case SfuJoin(_, _) => SfuJoinResult(t, i, p, result).0
    case SfuLeave(_, _, _, _, _) => SfuLeaveResult(t, i, p, result, now).0
    case SignalPending => t
    case CleanupPending => t
  }

  lemma AnswerIs(t: Table, step: Step)
    requires Answers(t, step)
    ensures Apply(t, step) == Answered(Forget(t, {step.result.id}), step.instance, step.connection,
                                       t.pending[step.result.id], step.result, step.now)
  {
    hide SyncResult, UpgradeJoinResult, SfuJoinResult, SfuLeaveResult;
  }

  lemma AnswerMoves(t: Table, step: Step, r: RoomId) returns (trail: seq<Move>)
    requires OkAt(t, r, false) && Answers(t, step) && !ReachesFailRoom(t, step)
    requires !EndsJoin(t, step, r) && !EndsLeave(t, step, r)
    ensures var t' := Answered(Forget(t, {step.result.id}), step.instance, step.connection,
                               t.pending[step.result.id], step.result, step.now);
            Follows(RoomAt(t, r), trail, RoomAt(t', r)) && Ordinaries(trail) && AllMade(step, trail)
  {
    hide RoomOk, SyncResult, UpgradeJoinResult, SfuJoinResult, SfuLeaveResult, Joined, Left;
    var p := t.pending[step.result.id];
    var t1 := Forget(t, {step.result.id});
    ResultElsewhere(t1, step.instance, p, step.result, step.now, r);
    trail := [];
    if p.SyncPending? { trail := SyncTrail(t1, step.connection, step.instance, p, step.result, r); }
    else if p.UpgradeJoin? { trail := UpgradeJoinTrail(t1, step.instance, p, step.result, r); }
  }

  lemma OrdinaryMoves(t: Table, step: Step, r: RoomId) returns (trail: seq<Move>)
    requires RoomsOk(t, false) && ProperOrders(t, step) && !step.TimeoutStep? && !ReachesFailRoom(t, step)
    requires !EndsJoin(t, step, r) && !EndsLeave(t, step, r)
    ensures Follows(RoomAt(t, r), trail, RoomAt(Apply(t, step), r)) && Ordinaries(trail) && AllMade(step, trail)
    ensures RoomAt(t, r).Some? ==> forall m :: m in trail ==> !m.Created?
  {
    hide RoomsOk, Apply, ProperOrders, ReachesFailRoom, Follows, EndsJoin, EndsLeave;
    if step.ResultStep? {
      trail := ResultMoves(t, step, r);
      NeverRecreated(t, step, r, trail);
    } else {
      trail := StepTrail(t, step, r);
      MadeOrdinary(step, trail);
    }
  }

  lemma MadeOrdinary(step: Step, trail: seq<Move>)
    requires AllMade(step, trail) && Unforced(trail) && !step.TimeoutStep? && !step.ResultStep?
    ensures Ordinaries(trail)
  {
  }

  /** Without a new creation, a room that is there at the end of a trail is there all along. */
  lemma Persists(a: Option<Room>, trail: seq<Move>, b: Option<Room>)
    requires Follows(a, trail, b) && (forall m :: m in trail ==> !m.Created?) && b.Some?
    ensures a.Some?
  {
    if trail != [] {
      assert trail[0] in trail;
      NothingFromNothing(a, trail[0]);
    }
  }
}
