/** The dwell: when a small room becomes direct again, and exactly when it does not, though its documentation says so. */
module V2Limits {
  import opened Wrappers
  import opened Collections
  import opened Sfu
  import opened V2State
  import opened V2Steps
  import opened V2Rooms
  import opened V2Moves
  import opened V2RoomSteps
  import opened V2Slots
  import opened V2SlotSteps
  import opened V2SlotTimers
  import opened V2RoomViews
  import opened V2Runs
  import opened V2Histories

  ghost predicate EligibleAt(a: Option<Room>) {
    a.Some? && DowngradeEligible(a.value)
  }

  /** The room could be direct, but no dwell is running. */
  ghost predicate Lapsed(room: Room) {
    DowngradeEligible(room) && room.downgradeDeadline.None?
  }

  ghost predicate LapsedAt(a: Option<Room>) {
    a.Some? && Lapsed(a.value)
  }

  ghost predicate Small(members: int) {
    1 <= members <= MAX_P2P_MEMBERS
  }

  lemma NoMembers(members: map<ClientId, Member>)
    ensures |members| == 0 <==> members == map[]
  {
  }

  lemma SameSize(a: map<ClientId, Member>, b: map<ClientId, Member>)
    requires a.Keys == b.Keys
    ensures |a| == |b| && (a == map[] <==> b == map[])
  {
    assert |a| == |a.Keys| && |b| == |b.Keys|;
    NoMembers(a);
    NoMembers(b);
  }

  // ---- the steps that leave a small room without a dwell ----

  /** The step ends a Join, however that went, or reports that a Leave has failed after the dwell has run out. The
      room it leaves behind is small, and nothing else is in flight for it. */
  ghost predicate Lapses(t: Table, step: Step, r: RoomId) {
    r in t.rooms &&
    var room := t.rooms[r];
    if EndsJoin(t, step, r) then room.pendingLeave.None? && Small(|LeftBehind(room, JoinAccepted(t, step))|)
    else
      && EndsLeave(t, step, r) && !LeaveSucceeds(t, step)
      && room.pendingJoin.None? && room.downgradeDeadline.None? && Small(|room.members|)
  }

  lemma JoinEndLapses(room: Room, accepted: bool)
    requires RoomShape(room) && room.mode == Sfu && room.pendingJoin.Some?
    ensures var left := LeftBehind(room, accepted);
            Lapsed(room.(pendingJoin := None, members := left)) <==> room.pendingLeave.None? && Small(|left|)
  {
    NoMembers(LeftBehind(room, accepted));
  }

  lemma LeaveEndLapses(dwell: nat, room: Room, c: ClientId, now: Instant)
    requires RoomShape(room) && room.mode == Sfu && room.pendingLeave.Some?
    ensures var done := room.(pendingLeave := None);
            && (Lapsed(done) <==> room.pendingJoin.None? && room.downgradeDeadline.None? && Small(|room.members|))
            && !LapsedAt(Remaining(Armed(dwell, WithoutMember(done, c), now)))
  {
    NoMembers(room.members);
  }

  /** The same mode, size, dwell and transitions in flight. */
  ghost predicate SameDwell(a: Room, b: Room) {
    && b.mode == a.mode && b.members.Keys == a.members.Keys && b.downgradeDeadline == a.downgradeDeadline
    && b.upgrade == a.upgrade && b.pendingJoin == a.pendingJoin && b.pendingLeave == a.pendingLeave
  }

  lemma SameDwellLapses(a: Room, b: Room)
    requires SameDwell(a, b)
    ensures (DowngradeEligible(b) <==> DowngradeEligible(a)) && (Lapsed(b) <==> Lapsed(a))
  {
    SameSize(a.members, b.members);
  }

  /** A move of a browser that is in an SFU room. */
  lemma BrowserMove(room: Room, m: Move)
    requires Enabled(Some(room), m)
    requires m.MemberRegistered? || m.MemberDeregistered? || m.GraceSet? || m.MessageQueued?
    ensures Moved(Some(room), m).Some? && SameDwell(room, Moved(Some(room), m).value)
  {
  }

  /** Any other ordinary move leaves the room in another mode, with something in flight, or with three members. */
  lemma MoveUnfit(a: Option<Room>, m: Move)
    requires OkOpt(a, true) && Enabled(a, m) && Ordinary(m)
    requires !m.MemberRegistered? && !m.MemberDeregistered? && !m.GraceSet? && !m.MessageQueued?
    ensures !EligibleAt(Moved(a, m))
  {
    hide Survivors, Relabelled, SortedSeq, NoRoles, QuietPeers, OneInitiator, Timers;
    if m.Departed? {
      SurvivorsSame(a.value.(members := a.value.members - m.gone));
    } else if m.UpgradeCommitted? {
      SameSize(a.value.members, CommittedRoom(AdvancedRoom(a.value, m.client)).members);
    }
  }

  /** A move that ends no Join or Leave keeps a room from lapsing. */
  lemma MoveNeverLapses(a: Option<Room>, m: Move)
    requires OkOpt(a, true) && Enabled(a, m) && Ordinary(m) && !LapsedAt(a)
    ensures !LapsedAt(Moved(a, m))
  {
    hide Enabled, Moved, OkOpt;
    if m.MemberRegistered? || m.MemberDeregistered? || m.GraceSet? || m.MessageQueued? {
      NothingFromNothing(a, m);
      BrowserMove(a.value, m);
      SameDwellLapses(a.value, Moved(a, m).value);
    } else {
      MoveUnfit(a, m);
    }
  }

  lemma {:induction false} TrailNeverLapses(a: Option<Room>, trail: seq<Move>, b: Option<Room>)
    requires OkOpt(a, true) && Follows(a, trail, b) && Ordinaries(trail) && !LapsedAt(a)
    ensures !LapsedAt(b)
    decreases |trail|
  {
    hide OkOpt, Enabled, Moved, LapsedAt;
    if trail != [] {
      assert trail[0] in trail && forall m :: m in trail[1..] ==> m in trail;
      MoveKeepsRoom(a, trail[0], true);
      MoveNeverLapses(a, trail[0]);
      TrailNeverLapses(Moved(a, trail[0]), trail[1..], b);
    }
  }

  lemma SweptNeverLapses(room: Room, b: Option<Room>, now: Instant, order: seq<ClientId>, grace: nat)
    requires SweptTo(room, b, now, order, grace) && !Lapsed(room)
    ensures !LapsedAt(b)
  {
    hide FirstDue, DueMembers, Survivors;
    var due, c := DueMembers(room, now), FirstDue(room.members, order, now);
    SurvivorsSame(room.(members := room.members - due));
    if c.Some? && c.value in room.members {
      SameDwellLapses(room, WithMember(room, c.value, room.members[c.value].(deadline := Some(now + grace))));
    }
  }

  lemma ExpiryNeverLapses(room: Room)
    requires room.mode == Upgrading ==> room.upgrade.Some?
    ensures !Lapsed(AfterExpiry(room))
  {
    hide AfterExpiry;
    AfterExpiryMode(room);
  }

  lemma TimeoutNeverLapses(t: Table, step: Step, r: RoomId, acks: Acks)
    requires Core(t, acks, false) && step.TimeoutStep? && ProperOrders(t, step) && !LapsedAt(RoomAt(t, r))
    ensures !LapsedAt(RoomAt(Apply(t, step), r))
  {
    hide Core, SweptTo, Lapsed, Apply, ProperOrders, AfterExpiry;
    var found, grace := TimeoutAt(t, step, r, acks, false);
    if HostIn(t, step.schedule.workers, r) { ExpiryNeverLapses(t.rooms[r]); }
    if found.Some? {
      SweptNeverLapses(found.value, RoomAt(Apply(t, step), r), step.now, Listing(step.schedule.members, r), grace);
    }
  }

  lemma ResultLapses(t: Table, step: Step, r: RoomId, acks: Acks)
    requires SlotAt(t, r, acks, false) && OkAt(t, r, true) && (EndsJoin(t, step, r) || EndsLeave(t, step, r))
    ensures LapsedAt(RoomAt(Apply(t, step), r)) <==> Lapses(t, step, r)
  {
    hide Apply, LeftBehind, Lapsed, Armed, JoinAccepted, LeaveSucceeds, RoomRoles;
    if EndsJoin(t, step, r) {
      JoinEndIs(t, step, r);
      JoinEndLapses(t.rooms[r], JoinAccepted(t, step));
    } else {
      LeaveEndIs(t, step, r);
      LeaveEndLapses(t.dwell, t.rooms[r], t.pending[step.result.id].client, step.now);
    }
  }

  lemma StepLapses(t: Table, step: Step, r: RoomId, acks: Acks)
    requires Core(t, acks, false) && ProperOrders(t, step) && !ReachesFailRoom(t, step) && !LapsedAt(RoomAt(t, r))
    ensures LapsedAt(RoomAt(Apply(t, step), r)) <==> Lapses(t, step, r)
  {
    assert SlotAt(t, r, acks, false) && OkAt(t, r, true);
    assert OkOpt(RoomAt(t, r), true) && RoomsOk(t, false) by { Weaken(t, true); }
    hide Apply, Core, ProperOrders, ReachesFailRoom, LapsedAt, SlotAt, OkOpt, OkAt, RoomsOk, EndsJoin, EndsLeave;
    if step.TimeoutStep? {
      TimeoutNeverLapses(t, step, r, acks);
      NoResult(t, step, r);
    } else if EndsJoin(t, step, r) || EndsLeave(t, step, r) {
      ResultLapses(t, step, r, acks);
    } else {
      var trail := OrdinaryMoves(t, step, r);
      TrailNeverLapses(RoomAt(t, r), trail, RoomAt(Apply(t, step), r));
    }
  }

  lemma NoResult(t: Table, step: Step, r: RoomId)
    requires !step.ResultStep?
    ensures !EndsJoin(t, step, r) && !EndsLeave(t, step, r)
  {
  }

  /** The dwell is promised to run in every small room. Exactly these steps of a tame run break that promise. */
  lemma LapsesExactly(config: Config, run: Run, k: nat, r: RoomId)
    requires k < |run| && Proper(config, run) && Unfailed(config, run) && !LapsedAt(RoomAt(At(config, run, k), r))
    ensures LapsedAt(RoomAt(At(config, run, k + 1), r)) <==> Lapses(At(config, run, k), run[k], r)
  {
    hide Apply, After, AcksOf, Core, LapsedAt, Lapses;
    TameAt(config, run, k, false);
    Prefix(config, run, k);
    StepLapses(At(config, run, k), run[k], r, AcksOf(config, run[..k]));
  }

  // ---- a running dwell ----

  lemma MoveKeepsDwell(a: Option<Room>, m: Move)
    requires OkOpt(a, true) && Enabled(a, m) && Ordinary(m) && EligibleAt(Moved(a, m))
    ensures EligibleAt(a) && Moved(a, m).value.downgradeDeadline == a.value.downgradeDeadline
  {
    hide Enabled, Moved, OkOpt;
    if m.MemberRegistered? || m.MemberDeregistered? || m.GraceSet? || m.MessageQueued? {
      NothingFromNothing(a, m);
      BrowserMove(a.value, m);
      SameDwellLapses(a.value, Moved(a, m).value);
    } else {
      MoveUnfit(a, m);
    }
  }

  lemma {:induction false} TrailKeepsDwell(a: Option<Room>, trail: seq<Move>, b: Option<Room>)
    requires OkOpt(a, true) && Follows(a, trail, b) && Ordinaries(trail) && EligibleAt(b)
    ensures EligibleAt(a) && b.value.downgradeDeadline == a.value.downgradeDeadline
    decreases |trail|
  {
    hide OkOpt, Enabled, Moved, DowngradeEligible;
    if trail != [] {
      assert trail[0] in trail && forall m :: m in trail[1..] ==> m in trail;
      MoveKeepsRoom(a, trail[0], true);
      TrailKeepsDwell(Moved(a, trail[0]), trail[1..], b);
      MoveKeepsDwell(a, trail[0]);
    }
  }

  /** A sweep of a room that could be direct makes it so exactly when its dwell is over, and otherwise leaves the dwell
      as it is. */
  lemma SweptDwell(room: Room, b: Option<Room>, now: Instant, order: seq<ClientId>, grace: nat)
    requires SweptTo(room, b, now, order, grace) && DowngradeEligible(room)
    ensures b.Some? && (b.value.mode == P2p <==> Due(room.downgradeDeadline, now))
    ensures b.value.mode == P2p ==> b.value == DowngradedRoom(room)
    ensures b.value.mode != P2p ==> b.value.mode == Sfu && b.value.downgradeDeadline == room.downgradeDeadline
  {
  }

  lemma ActiveStays(t: Table, step: Step, r: RoomId, acks: Acks)
    requires Core(t, acks, false) && step.TimeoutStep? && ProperOrders(t, step) && EligibleAt(RoomAt(t, r))
    ensures var b := RoomAt(Apply(t, step), r);
            var room := t.rooms[r];
            && b.Some?
            && if HostIn(t, step.schedule.workers, r) then b.value.mode == Failed
               else
                 && (b.value.mode == P2p <==> Due(room.downgradeDeadline, step.now))
                 && (b.value.mode == P2p ==> b.value == DowngradedRoom(room))
                 && (b.value.mode != P2p ==> b.value.mode == Sfu && b.value.downgradeDeadline == room.downgradeDeadline)
  {
    hide Core, SweptTo, Apply, ProperOrders, ExpiredRoom, DowngradedRoom;
    var found, grace := TimeoutAt(t, step, r, acks, false);
    var order, b := Listing(step.schedule.members, r), RoomAt(Apply(t, step), r);
    if HostIn(t, step.schedule.workers, r) {
      ExpiredSame(t.rooms[r]);
      SweptFails(found.value, b, step.now, order, grace);
    } else {
      SweptDwell(found.value, b, step.now, order, grace);
    }
  }

  lemma StepKeepsDwell(t: Table, step: Step, r: RoomId, acks: Acks)
    requires Core(t, acks, false) && ProperOrders(t, step) && !ReachesFailRoom(t, step)
    requires EligibleAt(RoomAt(t, r)) && EligibleAt(RoomAt(Apply(t, step), r))
    ensures Apply(t, step).rooms[r].downgradeDeadline == t.rooms[r].downgradeDeadline
  {
    assert OkOpt(RoomAt(t, r), true) && RoomsOk(t, false) by { Weaken(t, true); }
    assert !EndsJoin(t, step, r) && !EndsLeave(t, step, r);
    hide Apply, Core, ProperOrders, ReachesFailRoom, OkOpt, RoomsOk, EndsJoin, EndsLeave;
    if step.TimeoutStep? {
      ActiveStays(t, step, r, acks);
    } else {
      var trail := OrdinaryMoves(t, step, r);
      TrailKeepsDwell(RoomAt(t, r), trail, RoomAt(Apply(t, step), r));
    }
  }

  /** From state `i` to state `j` the room has at most two members, and nothing is in flight for it. */
  ghost predicate SitsSmall(config: Config, run: Run, r: RoomId, i: nat, j: nat)
    requires i <= j <= |run|
  {
    forall k :: i <= k <= j ==> EligibleAt(RoomAt(At(config, run, k), r))
  }

  lemma {:induction false} DwellStands(config: Config, run: Run, r: RoomId, i: nat, j: nat)
    requires i <= j <= |run| && Proper(config, run) && Unfailed(config, run) && SitsSmall(config, run, r, i, j)
    ensures At(config, run, j).rooms[r].downgradeDeadline == At(config, run, i).rooms[r].downgradeDeadline
    decreases j
  {
    hide Apply, ProperOrders, ReachesFailRoom, After, Core, DowngradeEligible, AcksOf;
    if i < j {
      DwellStands(config, run, r, i, j - 1);
      TameAt(config, run, j - 1, false);
      Prefix(config, run, j - 1);
      assert EligibleAt(RoomAt(At(config, run, j - 1), r)) && EligibleAt(RoomAt(At(config, run, j), r));
      StepKeepsDwell(At(config, run, j - 1), run[j - 1], r, AcksOf(config, run[..j - 1]));
    }
  }

  /** A room that sits small from state `i` on becomes direct at a timeout exactly when the deadline it had in state `i`
      is over: never before, then at once, and not at all if it had none. If its worker expires it fails instead. */
  lemma DwellDecides(config: Config, run: Run, r: RoomId, i: nat, j: nat)
    requires i <= j < |run| && Proper(config, run) && Unfailed(config, run) && SitsSmall(config, run, r, i, j)
    requires run[j].TimeoutStep?
    ensures r in At(config, run, i).rooms && r in At(config, run, j).rooms && r in At(config, run, j + 1).rooms
    ensures var before, after := At(config, run, j).rooms[r], At(config, run, j + 1).rooms[r];
            if before.instance.Some? && before.instance.value in run[j].schedule.workers then after.mode == Failed
            else if Due(At(config, run, i).rooms[r].downgradeDeadline, run[j].now) then after == DowngradedRoom(before)
            else after.mode == Sfu && after.downgradeDeadline == before.downgradeDeadline
  {
    hide Apply, After, AcksOf, Core, DowngradedRoom;
    DwellStands(config, run, r, i, j);
    TameAt(config, run, j, false);
    Prefix(config, run, j);
    assert EligibleAt(RoomAt(At(config, run, i), r)) && EligibleAt(RoomAt(At(config, run, j), r));
    ActiveStays(At(config, run, j), run[j], r, AcksOf(config, run[..j]));
  }

  // ---- without a dwell ----

  /** Relayed with no dwell running, or failed. */
  ghost predicate Undated(a: Option<Room>) {
    a.Some? && (a.value.mode == Failed || (a.value.mode == Sfu && a.value.downgradeDeadline.None?))
  }

  lemma MoveUndated(a: Option<Room>, m: Move)
    requires OkOpt(a, true) && Enabled(a, m) && Ordinary(m) && Undated(a) && Moved(a, m).Some?
    ensures Undated(Moved(a, m))
  {
    hide Survivors, NoRoles, QuietPeers, OneInitiator, Timers;
    if m.Departed? { SurvivorsSame(a.value.(members := a.value.members - m.gone)); }
  }

  lemma {:induction false} TrailUndated(a: Option<Room>, trail: seq<Move>, b: Option<Room>)
    requires OkOpt(a, true) && Follows(a, trail, b) && Ordinaries(trail) && Undated(a) && b.Some?
    requires forall m :: m in trail ==> !m.Created?
    ensures Undated(b)
    decreases |trail|
  {
    hide OkOpt, Enabled, Moved, Undated;
    if trail != [] {
      assert trail[0] in trail && forall m :: m in trail[1..] ==> m in trail;
      MoveKeepsRoom(a, trail[0], true);
      Persists(Moved(a, trail[0]), trail[1..], b);
      MoveUndated(a, trail[0]);
      TrailUndated(Moved(a, trail[0]), trail[1..], b);
    }
  }

  /** The step ends a Leave of room `r` with success. */
  ghost predicate FinishesLeave(t: Table, step: Step, r: RoomId) {
    EndsLeave(t, step, r) && LeaveSucceeds(t, step)
  }

  lemma SweptUndated(room: Room, b: Option<Room>, now: Instant, order: seq<ClientId>, grace: nat)
    requires SweptTo(room, b, now, order, grace) && Undated(Some(room))
    ensures Undated(b)
  {
  }

  lemma TimeoutUndated(t: Table, step: Step, r: RoomId, acks: Acks)
    requires Core(t, acks, false) && step.TimeoutStep? && ProperOrders(t, step) && Undated(RoomAt(t, r))
    ensures Undated(RoomAt(Apply(t, step), r))
  {
    hide Core, SweptTo, Apply, ProperOrders, ExpiredRoom;
    var found, grace := TimeoutAt(t, step, r, acks, false);
    ExpiredSame(t.rooms[r]);
    SweptUndated(found.value, RoomAt(Apply(t, step), r), step.now, Listing(step.schedule.members, r), grace);
  }

  lemma ResultUndated(t: Table, step: Step, r: RoomId)
    requires EndsJoin(t, step, r) || EndsLeave(t, step, r)
    requires Undated(RoomAt(t, r)) && !FinishesLeave(t, step, r)
    ensures Undated(RoomAt(Apply(t, step), r))
  {
    hide Apply, LeftBehind, JoinAccepted, LeaveSucceeds;
    if EndsJoin(t, step, r) { JoinEndIs(t, step, r); } else { LeaveEndIs(t, step, r); }
  }

  lemma StepUndated(t: Table, step: Step, r: RoomId, acks: Acks)
    requires Core(t, acks, false) && ProperOrders(t, step) && !ReachesFailRoom(t, step)
    requires Undated(RoomAt(t, r)) && r in Apply(t, step).rooms && !FinishesLeave(t, step, r)
    ensures Undated(RoomAt(Apply(t, step), r))
  {
    assert OkOpt(RoomAt(t, r), true) && RoomsOk(t, false) by { Weaken(t, true); }
    hide Apply, Core, ProperOrders, ReachesFailRoom, OkOpt, RoomsOk, EndsJoin, EndsLeave;
    if step.TimeoutStep? {
      TimeoutUndated(t, step, r, acks);
    } else if EndsJoin(t, step, r) || EndsLeave(t, step, r) {
      ResultUndated(t, step, r);
    } else {
      var trail := OrdinaryMoves(t, step, r);
      TrailUndated(RoomAt(t, r), trail, RoomAt(Apply(t, step), r));
    }
  }

  /** A room without a dwell, lapsed or not, stays relayed until a later Leave succeeds, or fails with its worker: it
      does not become direct, whatever timeouts there are. */
  lemma {:induction false} RelayedUntilLeave(config: Config, run: Run, r: RoomId, i: nat, j: nat)
    requires i <= j <= |run| && Proper(config, run) && Unfailed(config, run) && Lives(config, run, r, i, j)
    requires Undated(RoomAt(At(config, run, i), r))
    requires forall k :: i <= k < j ==> !FinishesLeave(At(config, run, k), run[k], r)
    ensures Undated(RoomAt(At(config, run, j), r))
    decreases j
  {
    hide Apply, ProperOrders, ReachesFailRoom, After, Core, Undated, AcksOf, FinishesLeave;
    if i < j {
      RelayedUntilLeave(config, run, r, i, j - 1);
      TameAt(config, run, j - 1, false);
      Prefix(config, run, j - 1);
      StepUndated(At(config, run, j - 1), run[j - 1], r, AcksOf(config, run[..j - 1]));
    }
  }
}
