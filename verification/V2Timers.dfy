/** Timeouts: when a sweep does nothing, why sweeping comes to an end, and whom it promotes. */
module V2Timers {
  import opened Wrappers
  import opened Collections
  import opened Sfu
  import opened V2State
  import opened V2Steps
  import opened V2Rooms
  import opened V2Moves
  import opened V2RoomSteps
  import opened V2Slots
  import opened V2SlotTimers
  import opened V2Sessions

  // ---- quiescence ----

  /** Nothing that `poll_timeout` reports is due. */
  ghost predicate NothingDue(t: Table, now: Instant) {
    forall d :: HasDeadline(t, d) ==> now < d
  }

  /** The condition is what a caller of `poll_timeout` sees. */
  lemma NothingDueFromPoll(t: Table, now: Instant, next: Option<Instant>)
    requires IsNextTimeout(t, next)
    ensures NothingDue(t, now) <==> next.None? || now < next.value
  {
  }

  /** A P2P room whose members have all gone, left for the next sweep to delete. */
  ghost predicate EmptyP2p(t: Table, r: RoomId) {
    r in t.rooms && t.rooms[r].mode == P2p && t.rooms[r].members == map[]
  }

  lemma QuietRoom(t: Table, now: Instant, r: RoomId, order: seq<ClientId>)
    requires NothingDue(t, now) && !EmptyP2p(t, r)
    ensures SweepRoom(t, now, r, order) == (t, None)
  {
    hide CommitDowngrade, LeaveOrWait, Survivors, PromotionOf;
    if r in t.rooms {
      var room := t.rooms[r];
      assert room.downgradeDeadline.Some? ==> HasDeadline(t, room.downgradeDeadline.value);
      forall c | c in room.members && Polled(room) ensures !Due(room.members[c].deadline, now) {
        if room.members[c].deadline.Some? { assert HasDeadline(t, room.members[c].deadline.value); }
      }
      if room.mode == Sfu {
        FirstDueFacts(room.members, order, now);
      } else if room.mode == P2p {
        assert DueMembers(room, now) == {};
        assert room.members - {} == room.members && room.(members := room.members) == room;
        assert t.rooms[r := room] == t.rooms;
      }
    }
  }

  lemma {:induction false} QuietRooms(t: Table, now: Instant, rooms: seq<RoomId>, members: map<RoomId, seq<ClientId>>)
    requires NothingDue(t, now) && forall r :: r in rooms ==> !EmptyP2p(t, r)
    ensures SweepRooms(t, now, rooms, members) == (t, [])
    decreases |rooms|
  {
    hide SweepRoom, NothingDue, EmptyP2p;
    if rooms != [] {
      assert rooms[0] in rooms;
      QuietRoom(t, now, rooms[0], Listing(members, rooms[0]));
      QuietRooms(t, now, rooms[1..], members);
      var none: seq<Promotion> := [];
      assert none + none == none;
    }
  }

  lemma QuietWorkers(t: Table, now: Instant, s: Schedule)
    requires NothingDue(t, now) && TimeoutOrders(t, now, s)
    ensures ExpireWorkers(t, s.workers, s.hosted) == t
  {
    assert DueWorkers(t, now) == {} by {
      assert forall i :: i in t.workers && t.workers[i].deadline.Some? ==> HasDeadline(t, t.workers[i].deadline.value);
    }
    ListsLength(s.workers, {});
  }

  /** If nothing reported is due, a timeout changes nothing and promotes nobody, as long as no
      deleted-by-force room waits to be reaped. */
  lemma Quiescence(t: Table, now: Instant, s: Schedule)
    requires NothingDue(t, now) && TimeoutOrders(t, now, s) && forall r: RoomId :: !EmptyP2p(t, r)
    ensures HandleTimeout(t, now, s) == (t, [])
  {
    QuietWorkers(t, now, s);
    QuietRooms(t, now, s.rooms, s.members);
  }

  // ---- progress ----

  ghost function One(b: bool): nat {
    if b then 1 else 0
  }

  /** What is still to be done about a room at `now`: due deadlines in any mode, and a Leave that
      could be sent. */
  ghost function Work(room: Room, now: Instant): nat {
    |DueMembers(room, now)| + One(Due(room.downgradeDeadline, now)) + One(room.mode == Sfu && room.pendingLeave.None?)
  }

  ghost function WorkOf(now: Instant): Room -> nat {
    room => Work(room, now)
  }

  ghost function LateOf(now: Instant): Worker -> nat {
    (worker: Worker) => One(Due(worker.deadline, now))
  }

  ghost function WorkOpt(a: Option<Room>, now: Instant): nat {
    if a.Some? then Work(a.value, now) else 0
  }

  /** The measure that every timeout with something due lowers. */
  ghost function Remainder(t: Table, now: Instant): nat {
    Sum(t.rooms, WorkOf(now)) + Sum(t.workers, LateOf(now))
  }

  lemma FewerDue(a: Room, b: Room, now: Instant)
    requires DueMembers(b, now) <= DueMembers(a, now)
    ensures |DueMembers(b, now)| <= |DueMembers(a, now)|
    ensures DueMembers(b, now) != DueMembers(a, now) ==> |DueMembers(b, now)| < |DueMembers(a, now)|
  {
    assert |DueMembers(a, now) - DueMembers(b, now)| == |DueMembers(a, now)| - |DueMembers(b, now)|;
    if DueMembers(b, now) != DueMembers(a, now) {
      assert DueMembers(a, now) - DueMembers(b, now) != {};
    }
  }

  /** A move of a timeout leaves no more work, provided new deadlines lie in the future. */
  ghost predicate Settling(m: Move, now: Instant) {
    (ExpiryMove(m) || SweepMove(m, now)) && (m.GraceSet? ==> now < m.deadline)
  }

  lemma SurvivorsDue(room: Room, gone: set<ClientId>, now: Instant)
    ensures DueMembers(Survivors(room.(members := room.members - gone)), now) == DueMembers(room, now) - gone
  {
    var rest := room.(members := room.members - gone);
    assert DueMembers(Survivors(rest), now) == DueMembers(rest, now);
  }

  /** The work that a move of a timeout takes away for sure. */
  ghost predicate Lowering(room: Room, m: Move, now: Instant) {
    match m
    case LeaveBegun(_, _) => true
    case RoomDowngraded => true
    case Disarmed => Due(room.downgradeDeadline, now)
    case GraceSet(c, _) => c in room.members && Due(room.members[c].deadline, now)
    case Departed(gone) => gone <= DueMembers(room, now)
    case _ => false
  }

  lemma DepartedWork(room: Room, gone: set<ClientId>, now: Instant)
    requires Enabled(Some(room), Departed(gone))
    ensures WorkOpt(Moved(Some(room), Departed(gone)), now) <= Work(room, now)
    ensures gone <= DueMembers(room, now) ==> WorkOpt(Moved(Some(room), Departed(gone)), now) < Work(room, now)
  {
    SurvivorsDue(room, gone, now);
    var left := Survivors(room.(members := room.members - gone));
    FewerDue(room, left, now);
    var d :| d in gone;
    if gone <= DueMembers(room, now) { assert d in DueMembers(room, now); }
  }

  lemma GraceWork(room: Room, c: ClientId, d: Instant, now: Instant)
    requires c in room.members && now < d
    ensures var b := WithMember(room, c, room.members[c].(deadline := Some(d)));
            Work(b, now) <= Work(room, now) && (Due(room.members[c].deadline, now) ==> Work(b, now) < Work(room, now))
  {
    var b := WithMember(room, c, room.members[c].(deadline := Some(d)));
    assert DueMembers(b, now) == DueMembers(room, now) - {c};
    FewerDue(room, b, now);
    if Due(room.members[c].deadline, now) { assert c in DueMembers(room, now); }
  }

  lemma SettlingWork(a: Option<Room>, m: Move, now: Instant)
    requires Enabled(a, m) && Settling(m, now) && a.Some?
    ensures WorkOpt(Moved(a, m), now) <= WorkOpt(a, now)
    ensures Lowering(a.value, m, now) ==> WorkOpt(Moved(a, m), now) < WorkOpt(a, now)
  {
    hide Survivors, DowngradeEligible, Work, DueMembers, BarrierRoom, ExpiredRoom, DowngradedRoom, CommittedRoom,
         AbortedRoom, RegisteredMembers, Armed;
    var room := a.value;
    if m.Departed? {
      DepartedWork(room, m.gone, now);
    } else if m.GraceSet? {
      GraceWork(room, m.client, m.deadline, now);
    } else {
      OtherWork(room, m, now);
    }
  }

  lemma OtherWork(room: Room, m: Move, now: Instant)
    requires Enabled(Some(room), m) && Settling(m, now) && !m.Departed? && !m.GraceSet?
    ensures WorkOpt(Moved(Some(room), m), now) <= Work(room, now)
    ensures Lowering(room, m, now) ==> WorkOpt(Moved(Some(room), m), now) < Work(room, now)
  {
    hide Survivors, BarrierRoom, CommittedRoom, RegisteredMembers, Armed, DowngradedRoom, ExpiredRoom, AbortedRoom, Work,
         DowngradeEligible, DueMembers;
    if m.RoomDowngraded? {
      DowngradedWork(room, now);
    } else if m == Expired {
      ExpiredWork(room, now);
    } else if m == UpgradeAborted {
      AbortedWork(room, now);
    } else if m.LeaveBegun? {
      LeaveBegunWork(room, PendingLeave(m.removal, m.client), now);
    } else if m.Disarmed? {
      DisarmedWork(room, now);
    }
  }

  lemma ExpiredWork(room: Room, now: Instant)
    ensures Work(ExpiredRoom(room), now) <= Work(room, now)
  {
    FewerDue(room, ExpiredRoom(room), now);
  }

  lemma AbortedWork(room: Room, now: Instant)
    requires room.upgrade.Some?
    ensures Work(AbortedRoom(room), now) <= Work(room, now)
  {
    FewerDue(room, AbortedRoom(room), now);
  }

  lemma LeaveBegunWork(room: Room, leave: PendingLeave, now: Instant)
    requires room.mode == Sfu && room.pendingLeave.None?
    ensures Work(room.(pendingLeave := Some(leave)), now) < Work(room, now)
  {
    FewerDue(room, room.(pendingLeave := Some(leave)), now);
  }

  lemma DisarmedWork(room: Room, now: Instant)
    ensures Work(room.(downgradeDeadline := None), now) <= Work(room, now)
    ensures Due(room.downgradeDeadline, now) ==> Work(room.(downgradeDeadline := None), now) < Work(room, now)
  {
    FewerDue(room, room.(downgradeDeadline := None), now);
  }

  lemma DowngradedWork(room: Room, now: Instant)
    requires DowngradeEligible(room)
    ensures Work(DowngradedRoom(room), now) < Work(room, now)
  {
    FewerDue(room, DowngradedRoom(room), now);
  }

  lemma {:induction false} SettlingTrail(a: Option<Room>, trail: seq<Move>, b: Option<Room>, now: Instant)
    requires Follows(a, trail, b) && forall m :: m in trail ==> Settling(m, now)
    ensures WorkOpt(b, now) <= WorkOpt(a, now)
    decreases |trail|
  {
    hide Enabled, Moved, WorkOpt;
    if trail != [] {
      assert trail[0] in trail;
      NothingSettles(a, trail[0], now);
      SettlingWork(a, trail[0], now);
      assert forall m :: m in trail[1..] ==> m in trail;
      SettlingTrail(Moved(a, trail[0]), trail[1..], b, now);
    }
  }

  lemma NothingSettles(a: Option<Room>, m: Move, now: Instant)
    requires Enabled(a, m) && Settling(m, now)
    ensures a.Some?
  {
  }

  // ---- sweeping rooms ----

  lemma FutureGrace(t: Table, now: Instant, r: RoomId, c: ClientId, s: RoomId) returns (trail: seq<Move>)
    requires 0 < t.grace && (r in t.rooms && c in t.rooms[r].members ==> !t.rooms[r].members[c].registered)
    ensures Follows(RoomAt(t, s), trail, RoomAt(LeaveOrWait(t, now, r, c), s))
    ensures forall m :: m in trail ==> Settling(m, now)
  {
    hide Follows;
    trail := LeaveOrWaitTrail(t, now, r, c, s);
  }

  /** The retry of a late Leave: it goes out, or the member gets a new deadline. */
  lemma RetryWork(t: Table, now: Instant, r: RoomId, c: ClientId)
    requires 0 < t.grace && r in t.rooms && c in t.rooms[r].members && Due(t.rooms[r].members[c].deadline, now)
    requires t.rooms[r].mode == Sfu && t.rooms[r].pendingLeave.None? && !t.rooms[r].members[c].registered
    ensures WorkOpt(RoomAt(LeaveOrWait(t, now, r, c), r), now) < WorkOpt(RoomAt(t, r), now)
  {
    hide LeaveOrWait, Moved, Work;
    var room := t.rooms[r];
    RetryIs(t, now, r, c);
    if IssueSfuLeave(t, r, c, None, Disconnected).Some? {
      SettlingWork(Some(room), LeaveBegun(None, c), now);
    } else {
      SettlingWork(Some(room), GraceSet(c, now + t.grace), now);
    }
  }

  lemma RetryIs(t: Table, now: Instant, r: RoomId, c: ClientId)
    requires r in t.rooms && c in t.rooms[r].members && !t.rooms[r].members[c].registered
    requires t.rooms[r].mode == Sfu && t.rooms[r].pendingLeave.None?
    ensures var m := if IssueSfuLeave(t, r, c, None, Disconnected).Some? then LeaveBegun(None, c)
                     else GraceSet(c, now + t.grace);
            Enabled(Some(t.rooms[r]), m) && RoomAt(LeaveOrWait(t, now, r, c), r) == Moved(Some(t.rooms[r]), m)
  {
  }

  /** The room has something due that a sweep acts on. */
  ghost predicate SweepsRoom(t: Table, now: Instant, r: RoomId) {
    r in t.rooms &&
    var room := t.rooms[r];
    Due(room.downgradeDeadline, now) || (Polled(room) && DueMembers(room, now) != {})
  }

  lemma SweepSettles(t: Table, now: Instant, r: RoomId, order: seq<ClientId>, s: RoomId)
    requires 0 < t.grace && RoomsOk(t, false)
    ensures WorkOpt(RoomAt(SweepRoom(t, now, r, order).0, s), now) <= WorkOpt(RoomAt(t, s), now)
  {
    hide RoomsOk, SweepDowngrade, SweepP2p, LeaveOrWait, WorkOpt, Follows;
    TimersAt(t, r);
    if r in t.rooms {
      var room := t.rooms[r];
      if Due(room.downgradeDeadline, now) {
        var trail := SweepDowngradeTrail(t, now, r, order, s);
        SweepDowngradeSettles(t, now, r, order, s);
      } else if room.mode == Sfu {
        FirstDueFacts(room.members, order, now);
        if room.pendingLeave.None? && FirstDue(room.members, order, now).Some? {
          var trail := FutureGrace(t, now, r, FirstDue(room.members, order, now).value, s);
          SettlingTrail(RoomAt(t, s), trail, RoomAt(SweepSfu(t, now, r, order), s), now);
        }
      } else if room.mode == P2p {
        var trail := SweepP2pTrail(t, now, r, s);
        P2pSettles(trail, now);
        SettlingTrail(RoomAt(t, s), trail, RoomAt(SweepP2p(t, now, r).0, s), now);
      }
    }
  }

  lemma P2pSettles(trail: seq<Move>, now: Instant)
    requires forall m :: m in trail ==> SweepMove(m, now) && !m.RoomDowngraded? && !m.GraceSet?
    ensures forall m :: m in trail ==> Settling(m, now)
  {
  }

  lemma SweepDowngradeSettles(t: Table, now: Instant, r: RoomId, order: seq<ClientId>, s: RoomId)
    requires r in t.rooms
    ensures WorkOpt(RoomAt(SweepDowngrade(t, r, order), s), now) <= WorkOpt(RoomAt(t, s), now)
    ensures s == r && Due(t.rooms[r].downgradeDeadline, now) ==>
              WorkOpt(RoomAt(SweepDowngrade(t, r, order), s), now) < WorkOpt(RoomAt(t, s), now)
  {
    hide CommitDowngrade, DowngradedRoom, Work;
    var room := t.rooms[r];
    if DowngradeEligible(room) {
      DowngradeRooms(t, r, order);
      SettlingWork(Some(room), RoomDowngraded, now);
    } else {
      SettlingWork(Some(room), Disarmed, now);
    }
  }

  lemma SweepP2pLowers(t: Table, now: Instant, r: RoomId)
    requires r in t.rooms && t.rooms[r].mode == P2p && DueMembers(t.rooms[r], now) != {}
    ensures WorkOpt(RoomAt(SweepP2p(t, now, r).0, r), now) < WorkOpt(RoomAt(t, r), now)
  {
    hide WorkOpt, PutOrReap, Survivors;
    var room := t.rooms[r];
    var due := DueMembers(room, now);
    PutOrReapAt(t, r, Survivors(room.(members := room.members - due)));
    SettlingWork(Some(room), Departed(due), now);
  }

  lemma SweepSfuLowers(t: Table, now: Instant, r: RoomId, order: seq<ClientId>)
    requires 0 < t.grace && r in t.rooms && t.rooms[r].mode == Sfu && t.rooms[r].pendingLeave.None?
    requires DueMembers(t.rooms[r], now) != {} && Timers(t.rooms[r].members) && ListsMembers(t, r, order)
    ensures WorkOpt(RoomAt(SweepSfu(t, now, r, order), r), now) < WorkOpt(RoomAt(t, r), now)
  {
    hide WorkOpt, LeaveOrWait;
    var room := t.rooms[r];
    var d :| d in DueMembers(room, now);
    FirstDueFacts(room.members, order, now);
    RetryWork(t, now, r, FirstDue(room.members, order, now).value);
  }

  /** A sweep that acts on a room lowers its work. */
  lemma SweepLowers(t: Table, now: Instant, r: RoomId, order: seq<ClientId>)
    requires 0 < t.grace && RoomsOk(t, false) && SweepsRoom(t, now, r) && ListsMembers(t, r, order)
    ensures WorkOpt(RoomAt(SweepRoom(t, now, r, order).0, r), now) < WorkOpt(RoomAt(t, r), now)
  {
    hide RoomsOk, WorkOpt, SweepDowngrade, SweepSfu, SweepP2p, ListsMembers, DueMembers, Timers;
    TimersAt(t, r);
    if Due(t.rooms[r].downgradeDeadline, now) {
      SweepDowngradeSettles(t, now, r, order, r);
    } else if t.rooms[r].mode == Sfu {
      SweepSfuLowers(t, now, r, order);
    } else {
      SweepP2pLowers(t, now, r);
    }
  }

  // ---- expiring workers ----

  lemma ExpirySettles(t: Table, workers: seq<InstanceId>, hosted: map<InstanceId, seq<RoomId>>, s: RoomId, now: Instant)
    requires RoomsOk(t, false)
    ensures WorkOpt(RoomAt(ExpireWorkers(t, workers, hosted), s), now) <= WorkOpt(RoomAt(t, s), now)
  {
    assert UpgradesPresent(t);
    hide RoomsOk, ExpireWorkers, WorkOpt, UpgradesPresent, Follows;
    var trail := ExpireWorkersTrail(t, workers, hosted, s);
    SettlingTrail(RoomAt(t, s), trail, RoomAt(ExpireWorkers(t, workers, hosted), s), now);
  }

  lemma RoomWork(t: Table, t': Table, now: Instant)
    requires forall s: RoomId :: WorkOpt(RoomAt(t', s), now) <= WorkOpt(RoomAt(t, s), now)
    ensures Sum(t'.rooms, WorkOf(now)) <= Sum(t.rooms, WorkOf(now))
    ensures (exists s: RoomId :: WorkOpt(RoomAt(t', s), now) < WorkOpt(RoomAt(t, s), now)) ==>
              Sum(t'.rooms, WorkOf(now)) < Sum(t.rooms, WorkOf(now))
  {
    forall s ensures ValueAt(t'.rooms, WorkOf(now), s) <= ValueAt(t.rooms, WorkOf(now), s) {
      assert WorkOpt(RoomAt(t', s), now) <= WorkOpt(RoomAt(t, s), now);
    }
    SumShrinks(t.rooms, t'.rooms, WorkOf(now));
    if s: RoomId :| WorkOpt(RoomAt(t', s), now) < WorkOpt(RoomAt(t, s), now) {
      assert ValueAt(t'.rooms, WorkOf(now), s) < ValueAt(t.rooms, WorkOf(now), s);
    }
  }

  lemma WorkerWork(t: Table, t': Table, now: Instant, expired: set<InstanceId>)
    requires SessionsExpired(t, t', expired)
    ensures Sum(t'.workers, LateOf(now)) <= Sum(t.workers, LateOf(now))
    ensures (exists i :: i in expired && i in t.workers && Due(t.workers[i].deadline, now)) ==>
              Sum(t'.workers, LateOf(now)) < Sum(t.workers, LateOf(now))
  {
    forall i ensures ValueAt(t'.workers, LateOf(now), i) <= ValueAt(t.workers, LateOf(now), i) {
    }
    SumShrinks(t.workers, t'.workers, LateOf(now));
    if i :| i in expired && i in t.workers && Due(t.workers[i].deadline, now) {
      assert ValueAt(t'.workers, LateOf(now), i) < ValueAt(t.workers, LateOf(now), i);
    }
  }

  // ---- a whole timeout ----

  lemma SweepSfuGrace(t: Table, now: Instant, r: RoomId, order: seq<ClientId>)
    requires r in t.rooms
    ensures SweepSfu(t, now, r, order).grace == t.grace
  {
    hide FirstDue, LeaveOrWait;
    var c := FirstDue(t.rooms[r].members, order, now);
    if c.Some? { LeaveOrWaitGrace(t, now, r, c.value); }
  }

  lemma SweepP2pGrace(t: Table, now: Instant, r: RoomId)
    requires r in t.rooms
    ensures SweepP2p(t, now, r).0.grace == t.grace
  {
    hide Survivors, PromotionOf, DueMembers, PutOrReap;
    var room := t.rooms[r];
    var kept := room.(members := room.members - DueMembers(room, now));
    PutOrReapGrace(t, r, kept);
    PutOrReapGrace(t, r, Survivors(kept));
  }

  lemma SweepPartsGrace(t: Table, now: Instant, r: RoomId, order: seq<ClientId>)
    requires r in t.rooms
    ensures SweepSfu(t, now, r, order).grace == t.grace
    ensures SweepP2p(t, now, r).0.grace == t.grace
    ensures SweepDowngrade(t, r, order).grace == t.grace
  {
    hide CommitDowngrade, SweepSfu, SweepP2p;
    SweepSfuGrace(t, now, r, order);
    SweepP2pGrace(t, now, r);
    if t.rooms[r].members != map[] { DowngradeGrace(t, r, order); }
  }

  lemma SweepRoomGrace(t: Table, now: Instant, r: RoomId, order: seq<ClientId>)
    ensures SweepRoom(t, now, r, order).0.grace == t.grace
  {
    hide SweepSfu, SweepP2p, SweepDowngrade;
    if r in t.rooms { SweepPartsGrace(t, now, r, order); }
  }

  lemma LeaveOrWaitGrace(t: Table, now: Instant, r: RoomId, c: ClientId)
    ensures LeaveOrWait(t, now, r, c).grace == t.grace
  {
  }

  lemma PutOrReapGrace(t: Table, r: RoomId, room: Room)
    ensures PutOrReap(t, r, room).grace == t.grace
  {
  }

  lemma DowngradeGrace(t: Table, r: RoomId, order: seq<ClientId>)
    requires r in t.rooms && t.rooms[r].members != map[]
    ensures CommitDowngrade(t, r, order).grace == t.grace
  {
    hide DowngradedRoom, Cleanup;
    var room := t.rooms[r];
    if room.instance.Some? {
      CleanupFrame(Unassign(PutRoom(t, r, DowngradedRoom(room)), r, room.instance.value, |room.members|), r,
                   room.instance.value, order, room.assignmentEpoch);
    }
  }

  lemma AbortGrace(t: Table, r: RoomId, reason: string)
    ensures AbortUpgrade(t, r, reason).0.grace == t.grace
  {
    hide Cleanup, WithoutMember;
    if r in t.rooms && t.rooms[r].upgrade.Some? && t.rooms[r].instance.Some? {
      var room := t.rooms[r];
      var t1 := PutRoom(t, r, WithoutMember(room, room.upgrade.value.joining)
                                .(upgrade := None, mode := P2p, instance := None));
      CleanupFrame(Unassign(t1, r, room.instance.value, 3), r, room.instance.value, room.upgrade.value.joined,
                   room.assignmentEpoch);
    }
  }

  lemma {:induction false} ExpireRoomsGrace(t: Table, rooms: seq<RoomId>)
    ensures ExpireRooms(t, rooms).grace == t.grace
    decreases |rooms|
  {
    hide AbortUpgrade, ExpiredRoom, ExpiryNotices;
    if rooms != [] {
      AbortGrace(t, rooms[0], "WORKER_UNAVAILABLE");
      ExpireRoomsGrace(ExpireRoom(t, rooms[0]), rooms[1..]);
    }
  }

  lemma {:induction false} ExpireWorkersGrace(t: Table, workers: seq<InstanceId>, hosted: map<InstanceId, seq<RoomId>>)
    ensures ExpireWorkers(t, workers, hosted).grace == t.grace
    decreases |workers|
  {
    hide ExpireRooms, CommandsOf;
    if workers != [] {
      var rooms := Listing(hosted, workers[0]);
      ExpireRoomsGrace(t, rooms);
      ExpireWorkersGrace(ExpireWorker(t, workers[0], rooms), workers[1..], hosted);
    }
  }

  /** A sweep leaves no more work than before, and less once it reaches a room with something due. */
  lemma {:induction false} SweepRoomsLower(t: Table, now: Instant, rooms: seq<RoomId>,
                                           members: map<RoomId, seq<ClientId>>, s: RoomId)
    requires 0 < t.grace && RoomsOk(t, false) && NoDuplicates(rooms)
    ensures WorkOpt(RoomAt(SweepRooms(t, now, rooms, members).0, s), now) <= WorkOpt(RoomAt(t, s), now)
    ensures s in rooms && SweepsRoom(t, now, s) && ListsMembers(t, s, Listing(members, s)) ==>
              WorkOpt(RoomAt(SweepRooms(t, now, rooms, members).0, s), now) < WorkOpt(RoomAt(t, s), now)
    decreases |rooms|
  {
    hide RoomsOk, SweepRoom, WorkOpt, SweepsRoom, ListsMembers;
    if rooms != [] {
      var r, rest := rooms[0], rooms[1..];
      var order := Listing(members, r);
      var t1 := SweepRoom(t, now, r, order).0;
      SweepSettles(t, now, r, order, s);
      SweepRoomShapes(t, now, r, order, false);
      SweepRoomGrace(t, now, r, order);
      SweepRoomsLower(t1, now, rest, members, s);
      if s in rooms && SweepsRoom(t, now, s) && ListsMembers(t, s, Listing(members, s)) {
        if s == r {
          SweepLowers(t, now, r, order);
        } else {
          SweepRoomElsewhere(t, now, r, order, s);
          assert SweepsRoom(t1, now, s) && ListsMembers(t1, s, Listing(members, s)) by { SameRoomSweeps(t, t1, now, s); }
        }
      }
    }
  }

  lemma SameRoomSweeps(t: Table, t1: Table, now: Instant, s: RoomId)
    requires RoomAt(t1, s) == RoomAt(t, s)
    ensures SweepsRoom(t1, now, s) == SweepsRoom(t, now, s)
    ensures forall order :: ListsMembers(t1, s, order) == ListsMembers(t, s, order)
  {
  }

  /** A due deadline that is reported belongs to an expired worker or to a room the sweep acts on. */
  lemma DueSomewhere(t: Table, now: Instant, d: Instant)
    requires HasDeadline(t, d) && d <= now
    ensures DueWorkers(t, now) != {} || exists r: RoomId :: SweepsRoom(t, now, r)
  {
    if i :| i in t.workers && t.workers[i].deadline == Some(d) {
      assert i in DueWorkers(t, now);
    } else if r :| r in t.rooms && t.rooms[r].downgradeDeadline == Some(d) {
      assert SweepsRoom(t, now, r);
    } else {
      var r, c :| r in t.rooms && Polled(t.rooms[r]) && c in t.rooms[r].members
                  && t.rooms[r].members[c].deadline == Some(d);
      assert c in DueMembers(t.rooms[r], now);
      assert SweepsRoom(t, now, r);
    }
  }

  /** Progress: with a nonzero grace, a timeout with something due lowers the remainder. */
  lemma TimeoutLowers(t: Table, now: Instant, s: Schedule, d: Instant)
    requires 0 < t.grace && RoomsOk(t, false) && TimeoutOrders(t, now, s)
    requires HasDeadline(t, d) && d <= now
    ensures Remainder(HandleTimeout(t, now, s).0, now) < Remainder(t, now)
  {
    hide RoomsOk, ExpireWorkers, SweepRooms, WorkOpt, SweepsRoom;
    var mid := ExpireWorkers(t, s.workers, s.hosted);
    var t' := HandleTimeout(t, now, s).0;
    ExpiryShapes(t, s.workers, s.hosted, false);
    ExpireWorkersGrace(t, s.workers, s.hosted);
    TimeoutSessions(t, now, s);
    DueSomewhere(t, now, d);
    forall r: RoomId
      ensures WorkOpt(RoomAt(t', r), now) <= WorkOpt(RoomAt(t, r), now)
      ensures mid == t && SweepsRoom(t, now, r) ==> WorkOpt(RoomAt(t', r), now) < WorkOpt(RoomAt(t, r), now)
    {
      ExpirySettles(t, s.workers, s.hosted, r, now);
      SweepRoomsLower(mid, now, s.rooms, s.members, r);
      if mid == t && SweepsRoom(t, now, r) {
        assert r in t.rooms by { SweptRoomExists(t, now, r); }
      }
    }
    RoomWork(t, t', now);
    WorkerWork(t, t', now, set i | i in s.workers);
    if DueWorkers(t, now) == {} {
      ListsLength(s.workers, {});
      assert mid == t by { NoneExpired(t, s); }
      var r: RoomId :| SweepsRoom(t, now, r);
      assert WorkOpt(RoomAt(t', r), now) < WorkOpt(RoomAt(t, r), now);
    } else {
      var i :| i in DueWorkers(t, now);
      assert i in s.workers;
    }
  }

  lemma NoneExpired(t: Table, s: Schedule)
    requires s.workers == []
    ensures ExpireWorkers(t, s.workers, s.hosted) == t
  {
  }

  lemma SweptRoomExists(t: Table, now: Instant, r: RoomId)
    requires SweepsRoom(t, now, r)
    ensures r in t.rooms
  {
  }

  /** A timeout is idle exactly when nothing reported is due. */
  lemma QuiescenceExact(t: Table, now: Instant, s: Schedule)
    requires 0 < t.grace && RoomsOk(t, false) && TimeoutOrders(t, now, s) && forall r: RoomId :: !EmptyP2p(t, r)
    ensures HandleTimeout(t, now, s) == (t, []) <==> NothingDue(t, now)
  {
    hide HandleTimeout, TimeoutOrders, RoomsOk, NothingDue, EmptyP2p, HasDeadline;
    if NothingDue(t, now) {
      Quiescence(t, now, s);
    } else {
      DueDeadline(t, now);
      var d: Instant :| HasDeadline(t, d) && d <= now;
      TimeoutLowers(t, now, s, d);
    }
  }

  // ---- timeouts until nothing is due ----

  ghost function Timeouts(t: Table, now: Instant, schedules: seq<Schedule>): Table
    decreases |schedules|
  {
    if schedules == [] then t else Timeouts(HandleTimeout(t, now, schedules[0]).0, now, schedules[1..])
  }

  /** Each timeout met something due, under orders it could meet. */
  ghost predicate Driven(t: Table, now: Instant, schedules: seq<Schedule>)
    decreases |schedules|
  {
    schedules == [] ||
    (!NothingDue(t, now) && TimeoutOrders(t, now, schedules[0])
     && Driven(HandleTimeout(t, now, schedules[0]).0, now, schedules[1..]))
  }

  /** Listings for workers that are not expired do not matter. */
  lemma {:induction false} OtherListings(t: Table, workers: seq<InstanceId>, hosted: map<InstanceId, seq<RoomId>>,
                                         i: InstanceId, rooms: seq<RoomId>)
    requires i !in workers
    ensures ExpireWorkers(t, workers, hosted[i := rooms]) == ExpireWorkers(t, workers, hosted)
    ensures ExpiryOrders(t, workers, hosted[i := rooms]) == ExpiryOrders(t, workers, hosted)
    decreases |workers|
  {
    hide ExpireWorker, Lists;
    if workers != [] {
      assert workers[0] in workers;
      OtherListings(ExpireWorker(t, workers[0], Listing(hosted, workers[0])), workers[1..], hosted, i, rooms);
    }
  }

  lemma {:induction false} ExpiryOrdersExist(t: Table, workers: seq<InstanceId>) returns (hosted: map<InstanceId, seq<RoomId>>)
    requires NoDuplicates(workers) && forall i :: i in workers ==> i in t.workers
    ensures ExpiryOrders(t, workers, hosted)
    decreases |workers|
  {
    hide ExpireWorker, SameSession;
    hosted := map[];
    if workers != [] {
      var i := workers[0];
      assert i in workers;
      var rooms := AnyListing(t.workers[i].rooms);
      var t1 := ExpireWorker(t, i, rooms);
      ExpireWorkerSessions(t, i, rooms);
      assert forall j :: j in workers[1..] ==> j in workers && j != i;
      hosted := ExpiryOrdersExist(t1, workers[1..]);
      OtherListings(t1, workers[1..], hosted, i, rooms);
      hosted := hosted[i := rooms];
    }
  }

  lemma ScheduleExists(t: Table, now: Instant) returns (s: Schedule)
    ensures TimeoutOrders(t, now, s)
  {
    hide ExpireWorkers, ExpiryOrders;
    var workers := AnyListing(DueWorkers(t, now));
    var hosted := ExpiryOrdersExist(t, workers);
    var mid := ExpireWorkers(t, workers, hosted);
    s := Schedule(workers, hosted, AnyListing(mid.rooms.Keys),
                  map r | r in mid.rooms :: AnyListing(mid.rooms[r].members.Keys));
  }

  lemma TimeoutShapes(t: Table, now: Instant, s: Schedule)
    requires RoomsOk(t, false) && TimeoutOrders(t, now, s)
    ensures RoomsOk(HandleTimeout(t, now, s).0, false) && HandleTimeout(t, now, s).0.grace == t.grace
  {
    hide RoomsOk, ExpireWorkers, SweepRooms;
    StepKeepsRooms(t, TimeoutStep(now, s), false);
    ExpireWorkersGrace(t, s.workers, s.hosted);
    SweepRoomsGrace(ExpireWorkers(t, s.workers, s.hosted), now, s.rooms, s.members);
  }

  lemma {:induction false} SweepRoomsGrace(t: Table, now: Instant, rooms: seq<RoomId>, members: map<RoomId, seq<ClientId>>)
    ensures SweepRooms(t, now, rooms, members).0.grace == t.grace
    decreases |rooms|
  {
    hide SweepRoom;
    if rooms != [] {
      SweepRoomGrace(t, now, rooms[0], Listing(members, rooms[0]));
      SweepRoomsGrace(SweepRoom(t, now, rooms[0], Listing(members, rooms[0])).0, now, rooms[1..], members);
    }
  }

  /** However the sweeps iterate, no more than `Remainder` of them in a row meet something due. */
  lemma {:induction false} DrivenBounded(t: Table, now: Instant, schedules: seq<Schedule>)
    requires 0 < t.grace && RoomsOk(t, false) && Driven(t, now, schedules)
    ensures |schedules| <= Remainder(t, now)
    decreases |schedules|
  {
    hide HandleTimeout, RoomsOk, TimeoutOrders, NothingDue, Remainder;
    if schedules != [] {
      DueDeadline(t, now);
      var d: Instant :| HasDeadline(t, d) && d <= now;
      TimeoutLowers(t, now, schedules[0], d);
      TimeoutShapes(t, now, schedules[0]);
      DrivenBounded(HandleTimeout(t, now, schedules[0]).0, now, schedules[1..]);
    }
  }

  lemma DueDeadline(t: Table, now: Instant)
    requires !NothingDue(t, now)
    ensures exists d: Instant :: HasDeadline(t, d) && d <= now
  {
  }

  /** Calling `handle_timeout` while `poll_timeout` is due comes to an end. */
  lemma {:induction false} Settles(t: Table, now: Instant) returns (schedules: seq<Schedule>)
    requires 0 < t.grace && RoomsOk(t, false)
    ensures Driven(t, now, schedules) && NothingDue(Timeouts(t, now, schedules), now)
    decreases Remainder(t, now)
  {
    hide HandleTimeout, RoomsOk, TimeoutOrders, NothingDue, Remainder;
    schedules := [];
    if !NothingDue(t, now) {
      var s := ScheduleExists(t, now);
      DueDeadline(t, now);
      var d: Instant :| HasDeadline(t, d) && d <= now;
      TimeoutLowers(t, now, s, d);
      TimeoutShapes(t, now, s);
      var rest := Settles(HandleTimeout(t, now, s).0, now);
      schedules := [s] + rest;
      assert schedules[1..] == rest;
    }
  }

  // ---- promotion ----

  /** The room loses one of its two members, and the other one is connected. */
  ghost predicate LosesPeer(a: Option<Room>, b: Option<Room>) {
    && a.Some? && b.Some? && a.value.mode == P2p && b.value.mode == P2p
    && |a.value.members| == MAX_P2P_MEMBERS && |b.value.members| == 1
    && forall c :: c in b.value.members ==> b.value.members[c].registered
  }

  /** What the survivor is told. */
  ghost predicate TellsSurvivor(r: RoomId, b: Option<Room>, p: Promotion) {
    b.Some? && p.room == r && b.value.members.Keys == {p.client} && p.signalEpoch == b.value.signalEpoch
  }

  lemma SurvivorsMembers(room: Room)
    ensures Survivors(room).members.Keys == room.members.Keys && |Survivors(room).members| == |room.members|
    ensures forall c :: c in room.members ==> Survivors(room).members[c].registered == room.members[c].registered
    ensures Survivors(room).mode == room.mode && Survivors(room).signalEpoch == room.signalEpoch
  {
    assert |room.members| == |room.members.Keys| && |Survivors(room).members| == |Survivors(room).members.Keys|;
  }

  lemma PromotionMeans(r: RoomId, room: Room)
    requires room.mode == P2p
    ensures PromotionOf(r, room).Some? <==>
              |room.members| == 1 && forall c :: c in room.members ==> room.members[c].registered
    ensures PromotionOf(r, room).Some? ==> TellsSurvivor(r, Some(Survivors(room)), PromotionOf(r, room).value)
  {
    SurvivorsMembers(room);
    if |room.members| == 1 {
      var c :| c in room.members;
      Alone(room.members, c);
    }
  }

  /** A departure promotes exactly when it leaves one of two members, connected. */
  lemma DeparturePromotes(r: RoomId, room: Room, gone: set<ClientId>)
    requires RoomShape(room) && room.mode == P2p && gone != {} && gone <= room.members.Keys
    ensures var rest := room.(members := room.members - gone);
            var b := Remaining(Survivors(rest));
            && (PromotionOf(r, rest).Some? <==> LosesPeer(Some(room), b))
            && (PromotionOf(r, rest).Some? ==> TellsSurvivor(r, b, PromotionOf(r, rest).value))
  {
    hide Survivors, PromotionOf;
    var rest := room.(members := room.members - gone);
    PromotionMeans(r, rest);
    SurvivorsMembers(rest);
    var c :| c in gone;
    MemberCounts(room.members, c, room.members[c]);
    Fewer(rest.members, room.members - {c});
    if |rest.members| == 1 {
      assert rest.members != map[];
      assert |room.members| == MAX_P2P_MEMBERS;
    }
    if Survivors(rest).members == map[] { assert rest.members.Keys == {}; assert |rest.members| == 0; }
  }

  /** The answer to a removal carries a promotion exactly when it leaves one of two members, connected. */
  lemma RemovalPromotes(t: Table, ticket: Ticket, r: RoomId, c: ClientId, token: string)
    requires RoomsOk(t, false)
    ensures var done := Remove(t, ticket, r, c, token);
            done.1.Ok? && done.1.value.Removed? ==>
              && (done.1.value.promotion.Some? <==> LosesPeer(RoomAt(t, r), RoomAt(done.0, r)))
              && (done.1.value.promotion.Some? ==> TellsSurvivor(r, RoomAt(done.0, r), done.1.value.promotion.value))
  {
    hide Survivors, PromotionOf, IssueSfuLeave, PutOrReap, LosesPeer, TellsSurvivor, RoomShape, RoomRoles;
    var done := Remove(t, ticket, r, c, token);
    if done.1.Ok? && done.1.value.Removed? {
      var room := t.rooms[r];
      var rest := WithoutMember(room, c);
      assert rest == room.(members := room.members - {c});
      PutOrReapAt(t, r, rest);
      PutOrReapAt(t, r, Survivors(rest));
      if room.mode == P2p {
        DeparturePromotes(r, room, {c});
      } else {
        NotP2p(RoomAt(t, r), RoomAt(done.0, r));
      }
    }
  }

  lemma NotP2p(a: Option<Room>, b: Option<Room>)
    requires a.Some? && a.value.mode != P2p
    ensures !LosesPeer(a, b)
  {
  }

  /** The same for the sweep of one room. */
  lemma SweepPromotes(t: Table, now: Instant, r: RoomId, order: seq<ClientId>)
    requires r in t.rooms ==> RoomShape(t.rooms[r])
    ensures var done := SweepRoom(t, now, r, order);
            && (done.1.Some? <==> LosesPeer(RoomAt(t, r), RoomAt(done.0, r)))
            && (done.1.Some? ==> TellsSurvivor(r, RoomAt(done.0, r), done.1.value))
  {
    hide SweepDowngrade, SweepSfu, LosesPeer, TellsSurvivor, PutOrReap, Survivors, PromotionOf, DueMembers;
    var b := RoomAt(SweepRoom(t, now, r, order).0, r);
    if r in t.rooms && t.rooms[r].mode == P2p {
      var room := t.rooms[r];
      var due := DueMembers(room, now);
      var kept := room.(members := room.members - due);
      PutOrReapAt(t, r, kept);
      PutOrReapAt(t, r, Survivors(kept));
      if due != {} {
        assert due <= room.members.Keys by { DueAreMembers(room, now); }
        DeparturePromotes(r, room, due);
      } else {
        assert room.members - due == room.members && kept == room;
        SameSize(room, b);
      }
    } else if r in t.rooms {
      NotP2p(RoomAt(t, r), b);
    } else {
      NobodyLoses(RoomAt(t, r), b);
    }
    hide RoomShape;
  }

  lemma DueAreMembers(room: Room, now: Instant)
    ensures DueMembers(room, now) <= room.members.Keys
  {
  }

  lemma SameSize(room: Room, b: Option<Room>)
    requires b == Remaining(room)
    ensures !LosesPeer(Some(room), b)
  {
  }

  lemma NobodyLoses(a: Option<Room>, b: Option<Room>)
    requires a.None?
    ensures !LosesPeer(a, b)
  {
  }

  ghost predicate ForRoom(p: Promotion, r: RoomId) {
    p.room == r
  }

  /** A sweep leaves the rooms that it does not list alone, and promotes nobody in them. */
  lemma {:induction false} SweepRoomsElsewhere(t: Table, now: Instant, rooms: seq<RoomId>,
                                               members: map<RoomId, seq<ClientId>>, s: RoomId)
    requires s !in rooms && RoomsOk(t, false)
    ensures var done := SweepRooms(t, now, rooms, members);
            RoomAt(done.0, s) == RoomAt(t, s) && forall p :: p in done.1 ==> !ForRoom(p, s)
    decreases |rooms|
  {
    hide SweepRoom, RoomsOk;
    if rooms != [] {
      var r := rooms[0];
      var order := Listing(members, r);
      assert r in rooms && r != s;
      SweepRoomElsewhere(t, now, r, order, s);
      SweepRoomShapes(t, now, r, order, false);
      ShapeFor(t, r);
      SweepPromotes(t, now, r, order);
      hide LosesPeer;
      assert forall k :: k in rooms[1..] ==> k in rooms;
      SweepRoomsElsewhere(SweepRoom(t, now, r, order).0, now, rooms[1..], members, s);
    }
  }

  lemma ShapeFor(t: Table, r: RoomId)
    requires RoomsOk(t, false)
    ensures r in t.rooms ==> RoomShape(t.rooms[r])
  {
  }

  /** The promotions for one room. */
  ghost function PromotionsFor(promotions: seq<Promotion>, r: RoomId): seq<Promotion> {
    if promotions == [] then []
    else (if ForRoom(promotions[0], r) then [promotions[0]] else []) + PromotionsFor(promotions[1..], r)
  }

  lemma {:induction false} NonePromoted(promotions: seq<Promotion>, r: RoomId)
    requires forall p :: p in promotions ==> !ForRoom(p, r)
    ensures PromotionsFor(promotions, r) == []
  {
    if promotions != [] {
      assert promotions[0] in promotions;
      NonePromoted(promotions[1..], r);
    }
  }

  /** A sweep's promotions, one room after another. */
  lemma PromotionsCons(first: Option<Promotion>, rest: seq<Promotion>, r: RoomId)
    ensures PromotionsFor((if first.Some? then [first.value] else []) + rest, r)
            == (if first.Some? && ForRoom(first.value, r) then [first.value] else []) + PromotionsFor(rest, r)
  {
    if first.Some? {
      assert ([first.value] + rest)[1..] == rest;
    } else {
      assert [] + rest == rest;
    }
  }

  /** What a sweep tells the members of a room, given the room before and after. */
  ghost predicate PromotedOnce(promoted: seq<Promotion>, r: RoomId, a: Option<Room>, b: Option<Room>) {
    && |promoted| <= 1
    && (|promoted| == 1 <==> LosesPeer(a, b))
    && (|promoted| == 1 ==> TellsSurvivor(r, b, promoted[0]))
  }

  /** A sweep promotes in a room exactly when it takes it from two members to one, and only once. */
  lemma {:induction false} SweepRoomsPromote(t: Table, now: Instant, rooms: seq<RoomId>,
                                             members: map<RoomId, seq<ClientId>>, s: RoomId)
    requires s in rooms && NoDuplicates(rooms) && RoomsOk(t, false)
    ensures var done := SweepRooms(t, now, rooms, members);
            PromotedOnce(PromotionsFor(done.1, s), s, RoomAt(t, s), RoomAt(done.0, s))
    decreases |rooms|
  {
    hide SweepRoom, RoomsOk, LosesPeer, TellsSurvivor, PromotionsFor;
    var r, rest := rooms[0], rooms[1..];
    var order := Listing(members, r);
    var swept := SweepRoom(t, now, r, order);
    var after := SweepRooms(swept.0, now, rest, members);
    PromotionsCons(swept.1, after.1, s);
    ShapeFor(t, r);
    SweepPromotes(t, now, r, order);
    SweepRoomShapes(t, now, r, order, false);
    if swept.1.Some? { TellsFor(r, RoomAt(swept.0, r), swept.1.value); }
    if s == r {
      assert s !in rest;
      SweepRoomsElsewhere(swept.0, now, rest, members, s);
      NonePromoted(after.1, s);
    } else {
      assert s in rest;
      SweepRoomElsewhere(t, now, r, order, s);
      SweepRoomsPromote(swept.0, now, rest, members, s);
    }
  }

  lemma TellsFor(r: RoomId, b: Option<Room>, p: Promotion)
    requires TellsSurvivor(r, b, p)
    ensures ForRoom(p, r)
  {
  }

  /** Promotion is exact: for each room, one if the sweep takes it from two members to one and the
      survivor is connected, none otherwise. The rooms are as worker expiry leaves them. */
  lemma TimeoutPromotes(t: Table, now: Instant, s: Schedule, r: RoomId)
    requires RoomsOk(t, false) && TimeoutOrders(t, now, s)
    ensures var mid := ExpireWorkers(t, s.workers, s.hosted);
            var done := HandleTimeout(t, now, s);
            var promoted := PromotionsFor(done.1, r);
            && |promoted| <= 1
            && (|promoted| == 1 <==> LosesPeer(RoomAt(mid, r), RoomAt(done.0, r)))
            && (|promoted| == 1 ==> TellsSurvivor(r, RoomAt(done.0, r), promoted[0]))
  {
    hide RoomsOk, ExpireWorkers, SweepRooms, LosesPeer, TellsSurvivor;
    var mid := ExpireWorkers(t, s.workers, s.hosted);
    ExpiryShapes(t, s.workers, s.hosted, false);
    if r in s.rooms {
      SweepRoomsPromote(mid, now, s.rooms, s.members, r);
    } else {
      SweepRoomsElsewhere(mid, now, s.rooms, s.members, r);
      NonePromoted(SweepRooms(mid, now, s.rooms, s.members).1, r);
      assert r !in mid.rooms;
      NobodyLoses(RoomAt(mid, r), RoomAt(HandleTimeout(t, now, s).0, r));
    }
  }

  /** An idle room is never told that anyone left. */
  lemma IdleNeverPromoted(t: Table, now: Instant, s: Schedule, r: RoomId)
    requires RoomsOk(t, false) && TimeoutOrders(t, now, s)
    requires RoomAt(HandleTimeout(t, now, s).0, r) == RoomAt(ExpireWorkers(t, s.workers, s.hosted), r)
    ensures PromotionsFor(HandleTimeout(t, now, s).1, r) == []
  {
    hide HandleTimeout, ExpireWorkers, RoomsOk;
    TimeoutPromotes(t, now, s, r);
  }
}
