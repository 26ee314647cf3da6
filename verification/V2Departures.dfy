/** How a connected member can go: exactly when it leaves the table, and that until then it stays connected under the
    token it was admitted with. */
module V2Departures {
  import opened Wrappers
  import opened Collections
  import opened Sfu
  import opened V2State
  import opened V2Steps
  import opened V2Rooms
  import opened V2Moves
  import opened V2RoomSteps
  import opened V2Slots
  import opened V2SlotSteps
  import opened V2SlotTimers
  import opened V2RoomViews
  import opened V2Presence
  import opened V2Runs
  import opened V2Histories
  import opened V2Limits
  import opened V2Failures
  import opened V2Strays

  /** Connected before and after, under the same token. */
  ghost predicate StaysConnected(a: Option<Room>, b: Option<Room>, c: ClientId) {
    Online(a, c) && Online(b, c) && b.value.members[c].token == a.value.members[c].token
  }

  // ---- moves ----

  /** The move takes the member out, or disconnects it. */
  ghost predicate TakesOut(m: Move, c: ClientId) {
    m == MemberDeregistered(c) || (m.Departed? && c in m.gone)
  }

  /** Whoever an abort turns away has not connected yet. */
  lemma AbortKeepsConnected(room: Room, c: ClientId)
    requires RoomOk(room, true) && room.upgrade.Some? && Online(Some(room), c)
    ensures StaysConnected(Some(room), Some(AbortedRoom(room)), c)
  {
    hide OneInitiator, QuietPeers, Timers, Parity;
    assert Newcomer(room.members[room.upgrade.value.joining]);
  }

  lemma SurvivorConnected(room: Room, c: ClientId)
    requires Online(Some(room), c)
    ensures StaysConnected(Some(room), Some(Survivors(room)), c)
  {
  }

  lemma DepartureKeepsConnected(room: Room, gone: set<ClientId>, c: ClientId)
    requires Online(Some(room), c) && c !in gone
    ensures StaysConnected(Some(room), Remaining(Survivors(room.(members := room.members - gone))), c)
  {
    hide Survivors;
    SurvivorConnected(room.(members := room.members - gone), c);
  }

  lemma CommitKeepsConnected(room: Room, d: ClientId, c: ClientId)
    requires Online(Some(room), c) && room.upgrade.Some?
    ensures StaysConnected(Some(room), Some(CommittedRoom(AdvancedRoom(room, d))), c)
  {
  }

  lemma MoveConnected(a: Option<Room>, m: Move, c: ClientId)
    requires OkOpt(a, true) && Enabled(a, m) && Ordinary(m) && !TakesOut(m, c) && Online(a, c)
    ensures StaysConnected(a, Moved(a, m), c)
  {
    hide Survivors, SortedSeq, CommittedRoom, AdvancedRoom, AbortedRoom, RoomOk, Remaining;
    if m.Departed? {
      DepartureKeepsConnected(a.value, m.gone, c);
    } else if m.UpgradeCommitted? {
      CommitKeepsConnected(a.value, m.client, c);
    } else if m.UpgradeAborted? {
      AbortKeepsConnected(a.value, c);
    } else if m.BarrierAdvanced? {
      assert AdvancedRoom(a.value, m.client).members == a.value.members by { AdvancedSame(a.value, m.client); }
    }
  }

  lemma AdvancedSame(room: Room, c: ClientId)
    requires room.upgrade.Some?
    ensures AdvancedRoom(room, c).members == room.members
  {
  }

  lemma {:induction false} TrailConnected(a: Option<Room>, trail: seq<Move>, b: Option<Room>, c: ClientId)
    requires OkOpt(a, true) && Follows(a, trail, b) && Ordinaries(trail) && Online(a, c)
    requires forall m :: m in trail ==> !TakesOut(m, c)
    ensures StaysConnected(a, b, c)
    decreases |trail|
  {
    hide OkOpt, Enabled, Moved, TakesOut;
    if trail != [] {
      assert trail[0] in trail && forall m :: m in trail[1..] ==> m in trail;
      MoveKeepsRoom(a, trail[0], true);
      MoveConnected(a, trail[0], c);
      TrailConnected(Moved(a, trail[0]), trail[1..], b, c);
    }
  }

  // ---- steps ----

  /** The step takes the connected member out: a Leave for it succeeds; it has connected while it was joining, and its
      Join is rejected or given up with the worker; or its removal is complete at once. */
  ghost predicate Departs(t: Table, step: Step, r: RoomId, c: ClientId) {
    r in t.rooms &&
    (|| (EndsLeave(t, step, r) && LeaveSucceeds(t, step) && LeaveFor(t.rooms[r], c))
     || (EndsJoin(t, step, r) && !JoinAccepted(t, step) && Awaits(t.rooms[r], c))
     || (V2Failures.Fails(t, step, r) && Awaits(t.rooms[r], c))
     || Removes(t, step, r, c))
  }

  ghost predicate Removes(t: Table, step: Step, r: RoomId, c: ClientId) {
    step.RemoveStep? && step.room == r && step.client == c
    && var done := Remove(t, step.ticket, r, c, step.token).1; done.Ok? && done.value.Removed?
  }

  /** The member itself disconnects. */
  ghost predicate Disconnects(step: Step, r: RoomId, c: ClientId) {
    step.DeregisterStep? && step.room == r && step.client == c
  }

  /** What becomes of a connected member. */
  ghost predicate Fares(a: Option<Room>, b: Option<Room>, c: ClientId, departs: bool, disconnects: bool)
    requires Online(a, c)
  {
    && (!Present(b, c) <==> departs)
    && (!departs ==> b.value.members[c].token == a.value.members[c].token)
    && (!departs && !disconnects ==> Online(b, c))
  }

  lemma LeaveEndFares(room: Room, left: bool, dwell: nat, now: Instant, c: ClientId)
    requires room.pendingLeave.Some? && Online(Some(room), c)
    ensures var done := room.(pendingLeave := None);
            var b := if left then Remaining(Armed(dwell, WithoutMember(done, room.pendingLeave.value.client), now))
                     else Some(done);
            Fares(Some(room), b, c, left && LeaveFor(room, c), false)
  {
    hide Armed;
    var rest := WithoutMember(room.(pendingLeave := None), room.pendingLeave.value.client);
    ArmedMembers(dwell, rest, now);
    if left && !LeaveFor(room, c) { assert c in rest.members && Remaining(Armed(dwell, rest, now)).Some?; }
  }

  lemma JoinEndFares(room: Room, accepted: bool, c: ClientId)
    requires room.pendingJoin.Some? && Online(Some(room), c)
    ensures Fares(Some(room), Some(room.(pendingJoin := None, members := LeftBehind(room, accepted))), c,
                  !accepted && Awaits(room, c), false)
  {
  }

  lemma JoinResultFares(t: Table, step: Step, r: RoomId, c: ClientId)
    requires EndsJoin(t, step, r) && Online(RoomAt(t, r), c)
    ensures Fares(RoomAt(t, r), RoomAt(Apply(t, step), r), c, Departs(t, step, r, c), false)
  {
    hide Apply, JoinAccepted, LeftBehind, Fares, Online;
    JoinEndIs(t, step, r);
    JoinEndFares(t.rooms[r], JoinAccepted(t, step), c);
  }

  lemma LeaveResultFares(t: Table, step: Step, r: RoomId, c: ClientId, acks: Acks)
    requires SlotAt(t, r, acks, true) && EndsLeave(t, step, r) && Online(RoomAt(t, r), c)
    ensures Fares(RoomAt(t, r), RoomAt(Apply(t, step), r), c, Departs(t, step, r, c), false)
  {
    hide Apply, LeaveSucceeds, Armed, Fares, Online, SlotAt, SfuOk;
    LeaveEndIs(t, step, r);
    LeaveNamed(t, step, r, acks, true);
    LeaveEndFares(t.rooms[r], LeaveSucceeds(t, step), t.dwell, step.now, c);
  }

  lemma ResultFares(t: Table, step: Step, r: RoomId, c: ClientId, acks: Acks)
    requires Core(t, acks, true) && (EndsJoin(t, step, r) || EndsLeave(t, step, r)) && Online(RoomAt(t, r), c)
    ensures Fares(RoomAt(t, r), RoomAt(Apply(t, step), r), c, Departs(t, step, r, c), false)
  {
    assert SlotAt(t, r, acks, true);
    hide Apply, Departs, Fares, Online, Core, SlotAt, EndsJoin, EndsLeave;
    if EndsJoin(t, step, r) { JoinResultFares(t, step, r, c); } else { LeaveResultFares(t, step, r, c, acks); }
  }

  lemma SweptConnected(room: Room, b: Option<Room>, now: Instant, order: seq<ClientId>, grace: nat, c: ClientId)
    requires SweptTo(room, b, now, order, grace) && Online(Some(room), c) && room.members[c].deadline.None?
    ensures StaysConnected(Some(room), b, c)
  {
    assert c !in DueMembers(room, now);
    FirstDueFacts(room.members, order, now);
    hide FirstDue, Survivors, DueMembers;
    if room.mode == P2p && DueMembers(room, now) != {} { DepartureKeepsConnected(room, DueMembers(room, now), c); }
  }

  lemma ExpiredConnected(room: Room, c: ClientId)
    requires Online(Some(room), c)
    ensures if Awaits(room, c) then !Present(Some(ExpiredRoom(room)), c)
            else StaysConnected(Some(room), Some(ExpiredRoom(room)), c)
                 && ExpiredRoom(room).members[c].deadline == room.members[c].deadline
  {
  }

  lemma AbortedDeadline(room: Room, c: ClientId)
    requires room.upgrade.Some? && c in room.members && c in AbortedRoom(room).members
    ensures AbortedRoom(room).members[c].deadline == room.members[c].deadline
  {
  }

  /** An expiry takes out the client whose Join it gives up, and no other connected one. */
  lemma ExpiryConnected(room: Room, c: ClientId)
    requires RoomOk(room, true) && Active(room) && (room.mode == Upgrading ==> room.upgrade.Some?) && Online(Some(room), c)
    ensures var found := AfterExpiry(room);
            if room.mode == Sfu && Awaits(room, c) then found.mode == Failed && !Present(Some(found), c)
            else StaysConnected(Some(room), Some(found), c) && found.members[c].deadline == room.members[c].deadline
  {
    hide ExpiredRoom, AbortedRoom, RoomOk;
    if room.mode == Upgrading {
      AbortKeepsConnected(room, c);
      AbortedDeadline(room, c);
    } else {
      ExpiredConnected(room, c);
      ExpiredSame(room);
    }
  }

  lemma TimeoutFares(t: Table, step: Step, r: RoomId, c: ClientId, acks: Acks)
    requires Core(t, acks, true) && step.TimeoutStep? && ProperOrders(t, step) && Online(RoomAt(t, r), c)
    ensures Fares(RoomAt(t, r), RoomAt(Apply(t, step), r), c, Departs(t, step, r, c), false)
  {
    assert RoomOk(t.rooms[r], true) && t.rooms[r].members[c].deadline.None?;
    NoResult(t, step, r);
    JoinsWhileRelayed(t, r, acks);
    hide Apply, ProperOrders, Core, SweptTo, AfterExpiry, RoomOk, EndsJoin, EndsLeave, Remove;
    var found, grace := TimeoutAt(t, step, r, acks, true);
    if HostIn(t, step.schedule.workers, r) { ExpiryConnected(t.rooms[r], c); }
    var b, order := RoomAt(Apply(t, step), r), Listing(step.schedule.members, r);
    if Online(found, c) {
      SweptConnected(found.value, b, step.now, order, grace, c);
    } else {
      SweptFails(found.value, b, step.now, order, grace);
    }
  }

  lemma JoinsWhileRelayed(t: Table, r: RoomId, acks: Acks)
    requires Core(t, acks, true) && r in t.rooms
    ensures t.rooms[r].pendingJoin.Some? ==> t.rooms[r].mode == Sfu
  {
    assert SlotAt(t, r, acks, true);
    hide Core;
  }

  lemma RemoveFares(t: Table, ticket: Ticket, r: RoomId, c: ClientId, token: string)
    requires Online(RoomAt(t, r), c)
    ensures var (t', done) := Remove(t, ticket, r, c, token);
            Fares(RoomAt(t, r), RoomAt(t', r), c, done.Ok? && done.value.Removed?, false)
  {
    hide Remove;
    var done := Remove(t, ticket, r, c, token).1;
    if done.Err? {
      RefusedRemoval(t, ticket, r, c, token);
    } else if done.value.Removed? {
      RemovedGone(t, ticket, r, c, token);
    } else {
      RemovalWaits(t, ticket, r, c, token);
    }
  }

  lemma RemovalWaits(t: Table, ticket: Ticket, r: RoomId, c: ClientId, token: string)
    requires Remove(t, ticket, r, c, token).1 == Ok(RemovalPending)
    ensures r in t.rooms && r in Remove(t, ticket, r, c, token).0.rooms
    ensures Remove(t, ticket, r, c, token).0.rooms[r].members == t.rooms[r].members
  {
  }

  lemma DisconnectFares(t: Table, now: Instant, r: RoomId, c: ClientId)
    requires Online(RoomAt(t, r), c)
    ensures Fares(RoomAt(t, r), RoomAt(Deregister(t, now, r, c), r), c, false, true)
  {
    hide LeaveOrWait, SetDeadline;
    var t1 := PutRoom(t, r, WithMember(t.rooms[r], c, t.rooms[r].members[c].(registered := false)));
    LeftOrWaiting(t1, now, r, c);
  }

  lemma LeftOrWaiting(t: Table, now: Instant, r: RoomId, c: ClientId)
    requires r in t.rooms && c in t.rooms[r].members
    ensures var b := RoomAt(LeaveOrWait(t, now, r, c), r);
            Present(b, c) && b.value.members[c].token == t.rooms[r].members[c].token
    ensures var b := RoomAt(SetDeadline(t, r, c, now + t.grace), r);
            Present(b, c) && b.value.members[c].token == t.rooms[r].members[c].token
  {
  }

  /** What a step of the member itself does to it. */
  lemma OwnFares(t: Table, step: Step, r: RoomId, c: ClientId)
    requires Online(RoomAt(t, r), c) && (step.DeregisterStep? || step.RemoveStep?) && step.client == c
    ensures Fares(RoomAt(t, r), RoomAt(Apply(t, step), r), c, Departs(t, step, r, c), Disconnects(step, r, c))
  {
    hide Remove, Deregister;
    if step.room == r {
      if step.RemoveStep? { RemoveFares(t, step.ticket, r, c, step.token); }
      else { DisconnectFares(t, step.now, r, c); }
    } else if step.RemoveStep? {
      RemoveElsewhere(t, step.ticket, step.room, c, step.token, r);
    } else {
      DeregisterElsewhere(t, step.now, step.room, c, r);
    }
  }

  lemma TakenOutBy(step: Step, trail: seq<Move>, c: ClientId)
    requires AllMade(step, trail) && !step.TimeoutStep? && !((step.DeregisterStep? || step.RemoveStep?) && step.client == c)
    ensures forall m :: m in trail ==> !TakesOut(m, c)
  {
  }

  lemma OrdinaryFares(t: Table, step: Step, r: RoomId, c: ClientId)
    requires RoomsOk(t, true) && ProperOrders(t, step) && !step.TimeoutStep? && !ReachesFailRoom(t, step)
    requires !EndsJoin(t, step, r) && !EndsLeave(t, step, r) && Online(RoomAt(t, r), c)
    requires !((step.DeregisterStep? || step.RemoveStep?) && step.client == c)
    ensures StaysConnected(RoomAt(t, r), RoomAt(Apply(t, step), r), c)
  {
    assert OkOpt(RoomAt(t, r), true) && RoomsOk(t, false) by { Weaken(t, true); }
    hide Apply, ProperOrders, ReachesFailRoom, OkOpt, RoomsOk, EndsJoin, EndsLeave, Online, AllMade, Follows;
    var trail := OrdinaryMoves(t, step, r);
    TakenOutBy(step, trail, c);
    TrailConnected(RoomAt(t, r), trail, RoomAt(Apply(t, step), r), c);
  }

  lemma NotDeparting(t: Table, step: Step, r: RoomId, c: ClientId)
    requires !step.TimeoutStep? && !EndsJoin(t, step, r) && !EndsLeave(t, step, r)
    requires !((step.DeregisterStep? || step.RemoveStep?) && step.client == c)
    ensures !Departs(t, step, r, c) && !Disconnects(step, r, c)
  {
    hide Remove;
  }

  lemma StepFares(t: Table, step: Step, r: RoomId, c: ClientId, acks: Acks)
    requires Core(t, acks, true) && ProperOrders(t, step) && !ReachesFailRoom(t, step) && Online(RoomAt(t, r), c)
    ensures Fares(RoomAt(t, r), RoomAt(Apply(t, step), r), c, Departs(t, step, r, c), Disconnects(step, r, c))
  {
    assert RoomsOk(t, true);
    hide Apply, Core, ProperOrders, ReachesFailRoom, RoomsOk, EndsJoin, EndsLeave, Online, Departs;
    if step.TimeoutStep? {
      TimeoutFares(t, step, r, c, acks);
    } else if EndsJoin(t, step, r) || EndsLeave(t, step, r) {
      assert step.ResultStep? by { EndsByResult(t, step, r); }
      ResultFares(t, step, r, c, acks);
    } else if (step.DeregisterStep? || step.RemoveStep?) && step.client == c {
      OwnFares(t, step, r, c);
    } else {
      OrdinaryFares(t, step, r, c);
      NotDeparting(t, step, r, c);
    }
  }

  lemma EndsByResult(t: Table, step: Step, r: RoomId)
    requires EndsJoin(t, step, r) || EndsLeave(t, step, r)
    ensures step.ResultStep?
  {
  }

  /** A connected member goes exactly by these steps. While it is in the table, its token stays what it was, and it
      stays connected until it disconnects. */
  lemma DepartsExactly(config: Config, run: Run, k: nat, r: RoomId, c: ClientId)
    requires k < |run| && Proper(config, run) && Unfailed(config, run) && Patient(config, run)
    requires Online(RoomAt(At(config, run, k), r), c)
    ensures !Present(RoomAt(At(config, run, k + 1), r), c) <==> Departs(At(config, run, k), run[k], r, c)
    ensures Present(RoomAt(At(config, run, k + 1), r), c) ==>
              && At(config, run, k + 1).rooms[r].members[c].token == At(config, run, k).rooms[r].members[c].token
              && (!Disconnects(run[k], r, c) ==> Online(RoomAt(At(config, run, k + 1), r), c))
  {
    TameAt(config, run, k, true);
    Prefix(config, run, k);
    UnfailedAt(config, run, k);
    hide Apply, After, AcksOf, Core, Departs, Online, Unfailed, Patient, ReachesFailRoom, ProperOrders;
    StepFares(At(config, run, k), run[k], r, c, AcksOf(config, run[..k]));
  }

  /** So an admitted member that is connected to a relayed room goes exactly when the Leave in flight for it succeeds. */
  lemma RelayedDepartsExactly(config: Config, run: Run, k: nat, r: RoomId, c: ClientId)
    requires k < |run| && Proper(config, run) && Unfailed(config, run) && Patient(config, run)
    requires Online(RoomAt(At(config, run, k), r), c)
    requires At(config, run, k).rooms[r].mode == Sfu && !Awaits(At(config, run, k).rooms[r], c)
    ensures var t := At(config, run, k);
            !Present(RoomAt(At(config, run, k + 1), r), c)
            <==> EndsLeave(t, run[k], r) && LeaveSucceeds(t, run[k]) && LeaveFor(t.rooms[r], c)
  {
    hide After, Apply;
    DepartsExactly(config, run, k, r, c);
    assert !Removes(At(config, run, k), run[k], r, c);
  }
}
