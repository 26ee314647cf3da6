/** What a run can leave behind: rooms without members, members that nobody waits for, and events that reach nobody.
    Each kind has the exact steps that make it, and a result on how long it stays. */
module V2Strays {
  import opened Wrappers
  import opened Collections
  import opened Sfu
  import opened V2State
  import opened V2Steps
  import opened V2Rooms
  import opened V2Moves
  import opened V2RoomSteps
  import opened V2Slots
  import opened V2SlotSteps
  import opened V2SlotTimers
  import opened V2RoomViews
  import opened V2Sessions
  import opened V2Runs
  import opened V2Histories
  import opened V2Limits
  import opened V2Failures

  // ---- rooms without members ----

  ghost predicate Vacant(a: Option<Room>) {
    a.Some? && a.value.members == map[]
  }

  /** Whoever is joining is alone in the room. */
  ghost predicate OnlyJoiner(room: Room) {
    room.pendingJoin.Some? && room.members.Keys == {room.pendingJoin.value.client}
  }

  /** The step turns away the only client of the room: its Join is rejected, or the worker expires. */
  ghost predicate Vacates(t: Table, step: Step, r: RoomId) {
    r in t.rooms && OnlyJoiner(t.rooms[r])
    && ((EndsJoin(t, step, r) && !JoinAccepted(t, step)) || Fails(t, step, r))
  }

  lemma WithoutJoiner(room: Room)
    requires room.pendingJoin.Some? && room.members != map[]
    ensures room.members - {room.pendingJoin.value.client} == map[] <==> OnlyJoiner(room)
  {
    var c := room.pendingJoin.value.client;
    assert (room.members - {c}).Keys == room.members.Keys - {c};
    assert room.members - {c} == map[] <==> room.members.Keys - {c} == {};
  }

  lemma MoveVacant(a: Option<Room>, m: Move)
    requires OkOpt(a, true) && Enabled(a, m) && Ordinary(m) && !Vacant(a)
    ensures !Vacant(Moved(a, m))
  {
    hide Survivors, NoRoles, QuietPeers, OneInitiator, Timers, Parity, Relabelled, SortedSeq;
    if m.MemberRegistered? || m.MemberDeregistered? || m.GraceSet? || m.MessageQueued? {
      BrowserMove(a.value, m);
      SameSize(a.value.members, Moved(a, m).value.members);
      hide Moved;
    } else if m.UpgradeAborted? {
      NothingFromNothing(a, m);
      var joining := a.value.upgrade.value.joining;
      MemberCounts(a.value.members, joining, a.value.members[joining]);
      assert |AbortedRoom(a.value).members| == 2;
    } else if m.UpgradeCommitted? {
      SameSize(a.value.members, CommittedRoom(AdvancedRoom(a.value, m.client)).members);
    } else if m.Created? || m.Paired? || m.JoinBegun? || m.UpgradeBegun? {
      assert m.client in Moved(a, m).value.members;
    }
  }

  lemma {:induction false} TrailVacant(a: Option<Room>, trail: seq<Move>, b: Option<Room>)
    requires OkOpt(a, true) && Follows(a, trail, b) && Ordinaries(trail) && !Vacant(a)
    ensures !Vacant(b)
    decreases |trail|
  {
    hide OkOpt, Enabled, Moved, Vacant;
    if trail != [] {
      assert trail[0] in trail && forall m :: m in trail[1..] ==> m in trail;
      MoveKeepsRoom(a, trail[0], true);
      MoveVacant(a, trail[0]);
      TrailVacant(Moved(a, trail[0]), trail[1..], b);
    }
  }

  lemma ResultVacant(t: Table, step: Step, r: RoomId)
    requires (EndsJoin(t, step, r) || EndsLeave(t, step, r)) && !Vacant(RoomAt(t, r))
    ensures Vacant(RoomAt(Apply(t, step), r)) <==> Vacates(t, step, r)
  {
    hide Apply, JoinAccepted, LeaveSucceeds, Armed, OnlyJoiner;
    if EndsJoin(t, step, r) {
      JoinEndIs(t, step, r);
      WithoutJoiner(t.rooms[r]);
    } else {
      LeaveEndIs(t, step, r);
    }
  }

  lemma SweptVacant(room: Room, b: Option<Room>, now: Instant, order: seq<ClientId>, grace: nat)
    requires SweptTo(room, b, now, order, grace)
    ensures Vacant(b) ==> room.members == map[]
    ensures room.members == map[] && (room.mode == Sfu || room.mode == Failed) ==> Vacant(b) && b.value.mode == room.mode
  {
    hide Survivors, DueMembers, FirstDue;
    if DowngradeEligible(room) { assert DowngradedRoom(room).members.Keys == room.members.Keys; }
    FirstDueFacts(room.members, order, now);
  }

  lemma AbortedVacant(room: Room)
    requires RoomOk(room, true) && room.mode == Upgrading
    ensures AbortedRoom(room).members != map[]
  {
    hide OneInitiator, QuietPeers, Timers;
    var joining := room.upgrade.value.joining;
    MemberCounts(room.members, joining, room.members[joining]);
  }

  lemma TimeoutVacant(t: Table, step: Step, r: RoomId, acks: Acks)
    requires Core(t, acks, false) && step.TimeoutStep? && ProperOrders(t, step) && !Vacant(RoomAt(t, r))
    ensures Vacant(RoomAt(Apply(t, step), r)) <==> Vacates(t, step, r)
  {
    hide SweptTo, Apply, ProperOrders, AbortedRoom, ExpiredRoom, OnlyJoiner, RoomOk;
    assert RoomsOk(t, true);
    hide Core;
    NoResult(t, step, r);
    var found, grace := TimeoutAt(t, step, r, acks, false);
    if found.Some? {
      SweptVacant(found.value, RoomAt(Apply(t, step), r), step.now, Listing(step.schedule.members, r), grace);
      var room := t.rooms[r];
      ExpiredSame(room);
      if room.mode == Upgrading { AbortedVacant(room); } else { ExpiredVacant(room); }
    }
  }

  lemma ExpiredVacant(room: Room)
    requires room.members != map[]
    ensures ExpiredRoom(room).members == map[] <==> OnlyJoiner(room)
  {
    if room.pendingJoin.Some? { WithoutJoiner(room); }
  }

  lemma StepVacant(t: Table, step: Step, r: RoomId, acks: Acks)
    requires Core(t, acks, false) && ProperOrders(t, step) && !ReachesFailRoom(t, step) && !Vacant(RoomAt(t, r))
    ensures Vacant(RoomAt(Apply(t, step), r)) <==> Vacates(t, step, r)
  {
    assert OkOpt(RoomAt(t, r), true) && RoomsOk(t, false) by { Weaken(t, true); }
    hide Apply, Core, ProperOrders, ReachesFailRoom, OkOpt, RoomsOk, EndsJoin, EndsLeave, Vacant, OnlyJoiner;
    if step.TimeoutStep? {
      TimeoutVacant(t, step, r, acks);
    } else if EndsJoin(t, step, r) || EndsLeave(t, step, r) {
      ResultVacant(t, step, r);
    } else {
      var trail := OrdinaryMoves(t, step, r);
      TrailVacant(RoomAt(t, r), trail, RoomAt(Apply(t, step), r));
    }
  }

  /** A room without members stays in the table exactly after these steps; any other that empties a room removes it. */
  lemma VacatesExactly(config: Config, run: Run, k: nat, r: RoomId)
    requires k < |run| && Proper(config, run) && Unfailed(config, run) && !Vacant(RoomAt(At(config, run, k), r))
    ensures Vacant(RoomAt(At(config, run, k + 1), r)) <==> Vacates(At(config, run, k), run[k], r)
  {
    hide Apply, After, AcksOf, Core, Vacates;
    TameAt(config, run, k, false);
    Prefix(config, run, k);
    StepVacant(At(config, run, k), run[k], r, AcksOf(config, run[..k]));
  }

  /** Vacant, and relayed or failed. */
  ghost predicate Deserted(a: Option<Room>) {
    Vacant(a) && (a.value.mode == Sfu || a.value.mode == Failed)
  }

  lemma MoveDeserted(a: Option<Room>, m: Move)
    requires OkOpt(a, true) && Deserted(a) && Enabled(a, m) && Ordinary(m)
    ensures m.JoinBegun?
  {
    hide Timers, Parity, NoRoles, QuietPeers, OneInitiator, Survivors, Relabelled, SortedSeq, RegisteredMembers;
  }

  lemma AdmitElsewhere(t: Table, ticket: Ticket, now: Instant, r: RoomId, c: ClientId, token: string, s: RoomId)
    requires s != r
    ensures RoomAt(Admit(t, ticket, now, r, c, token).0, s) == RoomAt(t, s)
  {
    hide AdmitToSfu, StartUpgrade, Selectable, LessLoaded;
    if r in t.rooms {
      AdmitToSfuElsewhere(t, ticket, now, r, c, token, s);
      if SelectWorker(t, 3).Some? { StartUpgradeRooms(t, ticket, now, r, c, token, SelectWorker(t, 3).value); }
    }
    hide UpgradingRoom;
  }

  /** The step admits somebody to room `r`: at once, or behind a Join. */
  ghost predicate Admits(t: Table, step: Step, r: RoomId) {
    step.AdmitStep? && step.room == r && Admit(t, step.ticket, step.now, r, step.client, step.token).1.Ok?
  }

  lemma AdmitDeserted(t: Table, ticket: Ticket, now: Instant, r: RoomId, c: ClientId, token: string)
    requires Deserted(RoomAt(t, r))
    ensures var (t', admitted) := Admit(t, ticket, now, r, c, token);
            && (admitted.Err? ==> t' == t) && (admitted.Ok? ==> !Vacant(RoomAt(t', r)))
            && (t.rooms[r].mode == Failed ==> admitted == Err("WORKER_UNAVAILABLE"))
  {
    hide CreateRoom, AdmitToP2p, StartUpgrade, SelectWorker;
  }

  lemma OrdinaryDeserted(t: Table, step: Step, r: RoomId)
    requires RoomsOk(t, true) && ProperOrders(t, step) && !step.TimeoutStep? && !ReachesFailRoom(t, step)
    requires !EndsJoin(t, step, r) && !EndsLeave(t, step, r)
    requires Deserted(RoomAt(t, r)) && !Admits(t, step, r)
    ensures RoomAt(Apply(t, step), r) == RoomAt(t, r)
  {
    if step.AdmitStep? {
      if step.room == r { AdmitDeserted(t, step.ticket, step.now, r, step.client, step.token); }
      else { AdmitElsewhere(t, step.ticket, step.now, step.room, step.client, step.token, r); }
      hide Admit, Deserted;
    } else {
      assert OkOpt(RoomAt(t, r), true) && RoomsOk(t, false) by { Weaken(t, true); }
      hide Apply, ProperOrders, ReachesFailRoom, OkOpt, RoomsOk, EndsJoin, EndsLeave, Deserted, Enabled, Moved;
      var trail := OrdinaryMoves(t, step, r);
      if trail != [] {
        assert trail[0] in trail;
        MoveDeserted(RoomAt(t, r), trail[0]);
      }
    }
  }

  lemma TimeoutDeserted(t: Table, step: Step, r: RoomId, acks: Acks, e2: bool)
    requires Core(t, acks, e2) && step.TimeoutStep? && ProperOrders(t, step) && Deserted(RoomAt(t, r))
    ensures Deserted(RoomAt(Apply(t, step), r))
  {
    hide SweptTo, Apply, ProperOrders, ExpiredRoom, Core;
    var found, grace := TimeoutAt(t, step, r, acks, e2);
    ExpiredSame(t.rooms[r]);
    SweptVacant(found.value, RoomAt(Apply(t, step), r), step.now, Listing(step.schedule.members, r), grace);
  }

  lemma JoinDeserted(t: Table, step: Step, r: RoomId)
    requires EndsJoin(t, step, r) && Deserted(RoomAt(t, r))
    ensures Deserted(RoomAt(Apply(t, step), r))
  {
    hide Apply, JoinAccepted;
    JoinEndIs(t, step, r);
  }

  /** A Leave in flight is for a member of a room that has not failed. */
  lemma NobodyLeaves(t: Table, step: Step, r: RoomId, acks: Acks, e2: bool)
    requires SlotAt(t, r, acks, e2) && Vacant(RoomAt(t, r)) && (e2 || t.rooms[r].mode == Failed)
    ensures !EndsLeave(t, step, r)
  {
    if EndsLeave(t, step, r) && e2 { LeaveNamed(t, step, r, acks, true); }
  }

  lemma StepDeserted(t: Table, step: Step, r: RoomId, acks: Acks, e2: bool)
    requires Core(t, acks, e2) && ProperOrders(t, step) && !ReachesFailRoom(t, step)
    requires Deserted(RoomAt(t, r)) && (e2 || t.rooms[r].mode == Failed)
    ensures Deserted(RoomAt(Apply(t, step), r)) <==> !Admits(t, step, r)
  {
    assert RoomsOk(t, true) && SlotAt(t, r, acks, e2);
    hide Core, ProperOrders, ReachesFailRoom, RoomsOk, EndsJoin, EndsLeave, Vacant, SlotAt;
    if Admits(t, step, r) {
      AdmitDeserted(t, step.ticket, step.now, r, step.client, step.token);
      ApplyAdmits(t, step);
      hide Apply, Admit;
    } else {
      StaysDeserted(t, step, r, acks, e2);
    }
  }

  lemma ApplyAdmits(t: Table, step: Step)
    requires step.AdmitStep?
    ensures Apply(t, step) == Admit(t, step.ticket, step.now, step.room, step.client, step.token).0
  {
    hide Admit;
  }

  lemma StaysDeserted(t: Table, step: Step, r: RoomId, acks: Acks, e2: bool)
    requires Core(t, acks, e2) && ProperOrders(t, step) && !ReachesFailRoom(t, step)
    requires Deserted(RoomAt(t, r)) && (e2 || t.rooms[r].mode == Failed) && !Admits(t, step, r)
    ensures Deserted(RoomAt(Apply(t, step), r))
  {
    assert RoomsOk(t, true) && SlotAt(t, r, acks, e2);
    hide Apply, Core, ProperOrders, ReachesFailRoom, RoomsOk, EndsJoin, EndsLeave, Vacant, SlotAt, Admits;
    if step.TimeoutStep? {
      TimeoutDeserted(t, step, r, acks, e2);
    } else if EndsJoin(t, step, r) {
      JoinDeserted(t, step, r);
    } else {
      NobodyLeaves(t, step, r, acks, e2);
      OrdinaryDeserted(t, step, r);
    }
  }

  /** What ends the emptiness of a relayed or failed room: an admission to it that is not refused, and nothing else. */
  lemma DesertedExactly(config: Config, run: Run, k: nat, r: RoomId)
    requires k < |run| && Proper(config, run) && Unfailed(config, run) && Patient(config, run)
    requires Deserted(RoomAt(At(config, run, k), r))
    ensures Deserted(RoomAt(At(config, run, k + 1), r)) <==> !Admits(At(config, run, k), run[k], r)
  {
    hide Apply, ProperOrders, ReachesFailRoom, LeavesJoiner, After, Core, Deserted, AcksOf, Admits;
    TameAt(config, run, k, true);
    UnfailedAt(config, run, k);
    Prefix(config, run, k);
    StepDeserted(At(config, run, k), run[k], r, AcksOf(config, run[..k]), true);
  }

  /** Until then the room stays in the table, and a relayed one stays assigned. */
  lemma {:induction false} DesertedStays(config: Config, run: Run, r: RoomId, i: nat, j: nat)
    requires i <= j <= |run| && Proper(config, run) && Unfailed(config, run) && Patient(config, run)
    requires Deserted(RoomAt(At(config, run, i), r))
    requires forall k :: i <= k < j ==> !Admits(At(config, run, k), run[k], r)
    ensures Deserted(RoomAt(At(config, run, j), r))
    decreases j
  {
    hide ProperOrders, ReachesFailRoom, LeavesJoiner, After, Deserted, Admits;
    if i < j {
      DesertedStays(config, run, r, i, j - 1);
      DesertedExactly(config, run, j - 1, r);
    }
  }

  ghost predicate Dead(a: Option<Room>) {
    Vacant(a) && a.value.mode == Failed
  }

  /** The id of a failed room without members is lost for good: the room stays, whatever is asked for, and answers every
      admission with WORKER_UNAVAILABLE. */
  lemma {:induction false} DeadForGood(config: Config, run: Run, r: RoomId, i: nat, j: nat, ticket: Ticket, now: Instant,
                                       c: ClientId, token: string)
    requires i <= j <= |run| && Proper(config, run) && Unfailed(config, run) && Dead(RoomAt(At(config, run, i), r))
    ensures Dead(RoomAt(At(config, run, j), r))
    ensures Admit(At(config, run, j), ticket, now, r, c, token) == (At(config, run, j), Err("WORKER_UNAVAILABLE"))
    decreases j
  {
    hide Apply, ProperOrders, ReachesFailRoom, After, Core, AcksOf, Admit, Admits;
    if i < j {
      DeadForGood(config, run, r, i, j - 1, ticket, now, c, token);
      TameAt(config, run, j - 1, false);
      UnfailedAt(config, run, j - 1);
      Prefix(config, run, j - 1);
      StaysDead(At(config, run, j - 1), run[j - 1], r, AcksOf(config, run[..j - 1]));
    }
    AdmitDeserted(At(config, run, j), ticket, now, r, c, token);
  }

  lemma StaysDead(t: Table, step: Step, r: RoomId, acks: Acks)
    requires Core(t, acks, false) && ProperOrders(t, step) && !ReachesFailRoom(t, step) && Dead(RoomAt(t, r))
    ensures Dead(RoomAt(Apply(t, step), r))
  {
    if step.AdmitStep? { AdmitDeserted(t, step.ticket, step.now, r, step.client, step.token); }
    assert !Admits(t, step, r) by { hide Admit; }
    hide Apply, Core, ProperOrders, ReachesFailRoom, Admits;
    StaysDeserted(t, step, r, acks, false);
    StepFails(t, step, r, acks);
  }

  lemma UnfailedAt(config: Config, run: Run, k: nat)
    requires k < |run| && Unfailed(config, run)
    ensures !ReachesFailRoom(At(config, run, k), run[k])
  {
  }

  // ---- members that nobody waits for ----

  /** Offline, and on no deadline. */
  ghost predicate Offline(room: Room, c: ClientId) {
    c in room.members && !room.members[c].registered && room.members[c].deadline.None?
  }

  ghost predicate LeaveFor(room: Room, c: ClientId) {
    room.pendingLeave.Some? && room.pendingLeave.value.client == c
  }

  /** Offline, on no deadline, and with no Leave in flight. */
  ghost predicate Unattended(a: Option<Room>, c: ClientId) {
    a.Some? && Offline(a.value, c) && !LeaveFor(a.value, c)
  }

  /** Unattended, and not about to be turned away. */
  ghost predicate Stuck(a: Option<Room>, c: ClientId) {
    && Unattended(a, c) && !Awaits(a.value, c)
    && (a.value.upgrade.Some? ==> a.value.upgrade.value.joining != c)
  }

  /** The Leave in flight for an offline member fails, or is given up with its worker. */
  ghost predicate Strands(t: Table, step: Step, r: RoomId, c: ClientId) {
    r in t.rooms && Offline(t.rooms[r], c) && LeaveFor(t.rooms[r], c)
    && ((EndsLeave(t, step, r) && !LeaveSucceeds(t, step)) || Fails(t, step, r))
  }

  lemma SurvivorsOffline(room: Room, c: ClientId)
    ensures Offline(Survivors(room), c) <==> Offline(room, c)
    ensures Survivors(room) == room.(members := Survivors(room).members)
  {
  }

  /** A move that disconnects nobody leaves nobody unattended. */
  lemma MoveUnattended(a: Option<Room>, m: Move, c: ClientId)
    requires Enabled(a, m) && Ordinary(m) && m != MemberDeregistered(c) && !Unattended(a, c)
    ensures !Unattended(Moved(a, m), c)
  {
    hide Survivors, SortedSeq;
    if m.Departed? { SurvivorsOffline(a.value.(members := a.value.members - m.gone), c); }
  }

  lemma {:induction false} TrailUnattended(a: Option<Room>, trail: seq<Move>, b: Option<Room>, c: ClientId)
    requires Follows(a, trail, b) && Ordinaries(trail) && MemberDeregistered(c) !in trail && !Unattended(a, c)
    ensures !Unattended(b, c)
    decreases |trail|
  {
    hide Enabled, Moved, Unattended, Ordinary;
    if trail != [] {
      assert trail[0] in trail && forall m :: m in trail[1..] ==> m in trail;
      MoveUnattended(a, trail[0], c);
      TrailUnattended(Moved(a, trail[0]), trail[1..], b, c);
    }
  }

  lemma LeaveOrWaitAttends(t: Table, now: Instant, r: RoomId, c: ClientId)
    requires r in t.rooms && c in t.rooms[r].members
    ensures !Unattended(RoomAt(LeaveOrWait(t, now, r, c), r), c)
    ensures !Unattended(RoomAt(SetDeadline(t, r, c, now + t.grace), r), c)
  {
  }

  lemma DeregisterElsewhere(t: Table, now: Instant, r: RoomId, c: ClientId, s: RoomId)
    requires s != r
    ensures RoomAt(Deregister(t, now, r, c), s) == RoomAt(t, s)
  {
    hide LeaveOrWait;
    if r in t.rooms && c in t.rooms[r].members {
      var t1 := PutRoom(t, r, WithMember(t.rooms[r], c, t.rooms[r].members[c].(registered := false)));
      LeaveOrWaitElsewhere(t1, now, r, c, s);
    }
  }

  /** A disconnect sends a Leave at once, or sets a deadline. */
  lemma DisconnectAttended(t: Table, now: Instant, r: RoomId, c: ClientId, s: RoomId)
    requires !Unattended(RoomAt(t, s), c)
    ensures !Unattended(RoomAt(Deregister(t, now, r, c), s), c)
  {
    hide LeaveOrWait, SetDeadline, Unattended;
    if s != r {
      DeregisterElsewhere(t, now, r, c, s);
    } else if r in t.rooms && c in t.rooms[r].members {
      var t1 := PutRoom(t, r, WithMember(t.rooms[r], c, t.rooms[r].members[c].(registered := false)));
      LeaveOrWaitAttends(t1, now, r, c);
    }
  }

  lemma JoinEndUnattended(room: Room, accepted: bool, c: ClientId)
    requires room.pendingJoin.Some?
    ensures var b := Some(room.(pendingJoin := None, members := LeftBehind(room, accepted)));
            && (Unattended(b, c) ==> Unattended(Some(room), c))
            && (Stuck(Some(room), c) ==> Stuck(b, c))
  {
  }

  lemma LeaveEndUnattended(room: Room, left: bool, dwell: nat, now: Instant, c: ClientId)
    requires room.pendingLeave.Some? && RoomShape(room) && room.mode == Sfu
    requires !Awaits(room, room.pendingLeave.value.client)
    ensures var done := room.(pendingLeave := None);
            var b := if left then Remaining(Armed(dwell, WithoutMember(done, room.pendingLeave.value.client), now))
                     else Some(done);
            && (Unattended(b, c) <==> Offline(room, c) && (LeaveFor(room, c) ==> !left))
            && (!left && Offline(room, c) && LeaveFor(room, c) ==> Stuck(b, c))
            && (Stuck(Some(room), c) ==> Stuck(b, c))
  {
    hide Armed, Timers, Parity;
    var rest := WithoutMember(room.(pendingLeave := None), room.pendingLeave.value.client);
    ArmedSame(dwell, rest, now);
    assert Offline(rest, c) <==> Offline(room, c) && !LeaveFor(room, c);
    if left && Offline(rest, c) { assert c in rest.members && Remaining(Armed(dwell, rest, now)).Some?; }
  }

  lemma ResultUnattended(t: Table, step: Step, r: RoomId, c: ClientId, acks: Acks)
    requires SlotAt(t, r, acks, true) && OkAt(t, r, true) && (EndsJoin(t, step, r) || EndsLeave(t, step, r))
    ensures var a, b := RoomAt(t, r), RoomAt(Apply(t, step), r);
            && (!Unattended(a, c) ==> (Unattended(b, c) <==> Strands(t, step, r, c)))
            && (Strands(t, step, r, c) ==> Stuck(b, c))
            && (Stuck(a, c) ==> Stuck(b, c))
  {
    hide Apply, JoinAccepted, LeaveSucceeds, Armed, BarrierShape, Slot, Hosts, Only, Acked, RoomRoles, LeftBehind, Stuck,
         Offline;
    if EndsJoin(t, step, r) {
      JoinEndIs(t, step, r);
      JoinEndUnattended(t.rooms[r], JoinAccepted(t, step), c);
    } else {
      LeaveEndIs(t, step, r);
      LeaveNamed(t, step, r, acks, true);
      LeaveEndUnattended(t.rooms[r], LeaveSucceeds(t, step), t.dwell, step.now, c);
    }
  }

  /** A sweep attends to nobody but members whose deadline is over. */
  lemma SweptUnattended(room: Room, b: Option<Room>, now: Instant, order: seq<ClientId>, grace: nat, c: ClientId)
    requires SweptTo(room, b, now, order, grace)
    ensures Unattended(Some(room), c) <==> Unattended(b, c)
    ensures Stuck(Some(room), c) ==> Stuck(b, c)
  {
    hide FirstDue, Survivors;
    FirstDueFacts(room.members, order, now);
    SurvivorsOffline(room.(members := room.members - DueMembers(room, now)), c);
  }

  lemma ExpiredUnattended(room: Room, c: ClientId)
    requires !Awaits(room, c)
    ensures Unattended(Some(ExpiredRoom(room)), c) <==> Offline(room, c)
    ensures room.upgrade.None? && Offline(room, c) ==> Stuck(Some(ExpiredRoom(room)), c)
  {
  }

  lemma AbortedUnattended(room: Room, c: ClientId)
    requires room.upgrade.Some? && room.pendingLeave.None?
    ensures Unattended(Some(AbortedRoom(room)), c) ==> Unattended(Some(room), c)
    ensures Stuck(Some(room), c) ==> Stuck(Some(AbortedRoom(room)), c)
  {
  }

  lemma TimeoutUnattended(t: Table, step: Step, r: RoomId, c: ClientId, acks: Acks)
    requires Core(t, acks, true) && step.TimeoutStep? && ProperOrders(t, step)
    ensures var a, b := RoomAt(t, r), RoomAt(Apply(t, step), r);
            && (!Unattended(a, c) ==> (Unattended(b, c) <==> Strands(t, step, r, c)))
            && (Strands(t, step, r, c) ==> Stuck(b, c))
            && (Stuck(a, c) ==> Stuck(b, c))
  {
    assert SlotAt(t, r, acks, true) && OkAt(t, r, true);
    NoResult(t, step, r);
    LeaverStays(t, r, acks);
    hide SweptTo, Apply, ProperOrders, AbortedRoom, ExpiredRoom, Core, Offline, RoomRoles, Parity, Timers, Stuck, SlotOk,
         ViewOf, EndsLeave, LeaveSucceeds;
    var found, grace := TimeoutAt(t, step, r, acks, true);
    if found.Some? {
      var room := t.rooms[r];
      SweptUnattended(found.value, RoomAt(Apply(t, step), r), step.now, Listing(step.schedule.members, r), grace, c);
      if HostIn(t, step.schedule.workers, r) {
        if room.mode == Upgrading { AbortedUnattended(room, c); } else if !Awaits(room, c) { ExpiredUnattended(room, c); }
        else { JoinerGone(room, c); }
      }
    }
  }

  lemma JoinerGone(room: Room, c: ClientId)
    requires Awaits(room, c)
    ensures !Unattended(Some(ExpiredRoom(room)), c)
  {
  }

  /** Nobody leaves who is still joining. */
  lemma LeaverStays(t: Table, r: RoomId, acks: Acks)
    requires SlotAt(t, r, acks, true)
    ensures r in t.rooms && t.rooms[r].pendingLeave.Some? ==> !Awaits(t.rooms[r], t.rooms[r].pendingLeave.value.client)
  {
  }

  lemma OrdinaryUnattended(t: Table, step: Step, r: RoomId, c: ClientId)
    requires RoomsOk(t, false) && ProperOrders(t, step) && !step.TimeoutStep? && !ReachesFailRoom(t, step)
    requires !EndsJoin(t, step, r) && !EndsLeave(t, step, r) && !Unattended(RoomAt(t, r), c)
    ensures !Unattended(RoomAt(Apply(t, step), r), c)
  {
    if step.DeregisterStep? && step.client == c {
      DisconnectAttended(t, step.now, step.room, c, r);
      hide Deregister, Unattended;
    } else {
      hide Apply, ProperOrders, ReachesFailRoom, RoomsOk, EndsJoin, EndsLeave, Unattended, Follows;
      var trail := OrdinaryMoves(t, step, r);
      DisconnectedBy(step, trail, c);
      TrailUnattended(RoomAt(t, r), trail, RoomAt(Apply(t, step), r), c);
    }
  }

  lemma DisconnectedBy(step: Step, trail: seq<Move>, c: ClientId)
    requires AllMade(step, trail) && !(step.DeregisterStep? && step.client == c)
    ensures MemberDeregistered(c) !in trail
  {
  }

  lemma StepUnattended(t: Table, step: Step, r: RoomId, c: ClientId, acks: Acks)
    requires Core(t, acks, true) && ProperOrders(t, step) && !ReachesFailRoom(t, step) && !Unattended(RoomAt(t, r), c)
    ensures Unattended(RoomAt(Apply(t, step), r), c) <==> Strands(t, step, r, c)
    ensures Strands(t, step, r, c) ==> Stuck(RoomAt(Apply(t, step), r), c)
  {
    assert RoomsOk(t, false) by { Weaken(t, true); }
    assert SlotAt(t, r, acks, true) && OkAt(t, r, true);
    hide Apply, Core, ProperOrders, ReachesFailRoom, RoomsOk, EndsJoin, EndsLeave, Unattended, Stuck, SlotAt, OkAt, Offline;
    if step.TimeoutStep? {
      TimeoutUnattended(t, step, r, c, acks);
    } else if EndsJoin(t, step, r) || EndsLeave(t, step, r) {
      ResultUnattended(t, step, r, c, acks);
    } else {
      OrdinaryUnattended(t, step, r, c);
    }
  }

  /** A departure that nobody sees to: a member is left offline, on no deadline, with no Leave in flight, exactly when
      the Leave in flight for it fails, or is given up because the worker expires. */
  lemma StrandsExactly(config: Config, run: Run, k: nat, r: RoomId, c: ClientId)
    requires k < |run| && Proper(config, run) && Unfailed(config, run) && Patient(config, run)
    requires !Unattended(RoomAt(At(config, run, k), r), c)
    ensures Unattended(RoomAt(At(config, run, k + 1), r), c) <==> Strands(At(config, run, k), run[k], r, c)
    ensures Strands(At(config, run, k), run[k], r, c) ==> Stuck(RoomAt(At(config, run, k + 1), r), c)
  {
    hide Apply, After, AcksOf, Core, Strands, Unattended, Stuck, Unfailed, Patient, ReachesFailRoom, ProperOrders;
    TameAt(config, run, k, true);
    Prefix(config, run, k);
    UnfailedAt(config, run, k);
    StepUnattended(At(config, run, k), run[k], r, c, AcksOf(config, run[..k]));
  }

  // ---- how long they stay ----

  /** The move sees to the member: it comes back, is removed, or is told to leave or be waited for. */
  ghost predicate SeesTo(m: Move, c: ClientId) {
    || ((m.MemberRegistered? || m.GraceSet? || m.LeaveBegun?) && m.client == c)
    || (m.Departed? && c in m.gone)
  }

  lemma MoveStuck(a: Option<Room>, m: Move, c: ClientId)
    requires OkOpt(a, true) && Enabled(a, m) && Ordinary(m) && !SeesTo(m, c) && Stuck(a, c)
    ensures Stuck(Moved(a, m), c)
  {
    hide Survivors, SortedSeq, NoRoles, QuietPeers, OneInitiator, Timers, Parity;
    if m.Departed? { SurvivorsOffline(a.value.(members := a.value.members - m.gone), c); }
  }

  lemma {:induction false} TrailStuck(a: Option<Room>, trail: seq<Move>, b: Option<Room>, c: ClientId)
    requires OkOpt(a, true) && Follows(a, trail, b) && Ordinaries(trail) && Stuck(a, c)
    requires forall m :: m in trail ==> !SeesTo(m, c)
    ensures Stuck(b, c)
    decreases |trail|
  {
    hide OkOpt, Enabled, Moved, Stuck, SeesTo;
    if trail != [] {
      assert trail[0] in trail && forall m :: m in trail[1..] ==> m in trail;
      MoveKeepsRoom(a, trail[0], true);
      MoveStuck(a, trail[0], c);
      TrailStuck(Moved(a, trail[0]), trail[1..], b, c);
    }
  }

  /** The member comes back, or its removal is accepted. */
  ghost predicate Recovers(t: Table, step: Step, r: RoomId, c: ClientId) {
    || (step.RegisterStep? && step.room == r && step.client == c
        && Register(t, r, c, step.token, step.order).1.Ok?)
    || (step.RemoveStep? && step.room == r && step.client == c && Remove(t, step.ticket, r, c, step.token).1.Ok?)
  }

  lemma RegisterElsewhere(t: Table, r: RoomId, c: ClientId, token: string, order: seq<ClientId>, s: RoomId)
    requires s != r
    ensures RoomAt(Register(t, r, c, token, order).0, s) == RoomAt(t, s)
  {
  }

  lemma LeaveElsewhere(t: Table, ticket: Ticket, r: RoomId, c: ClientId, s: RoomId)
    requires s != r && IssueSfuLeave(t, r, c, Some(ticket), User).Some?
    ensures RoomAt(IssueSfuLeave(t, r, c, Some(ticket), User).value, s) == RoomAt(t, s)
  {
  }

  lemma RemoveElsewhere(t: Table, ticket: Ticket, r: RoomId, c: ClientId, token: string, s: RoomId)
    requires s != r
    ensures RoomAt(Remove(t, ticket, r, c, token).0, s) == RoomAt(t, s)
  {
    hide Survivors, PromotionOf, IssueSfuLeave, PutOrReap;
    if IssueSfuLeave(t, r, c, Some(ticket), User).Some? { LeaveElsewhere(t, ticket, r, c, s); }
    if r in t.rooms {
      var rest := WithoutMember(t.rooms[r], c);
      PutOrReapElsewhere(t, r, rest, s);
      PutOrReapElsewhere(t, r, Survivors(rest), s);
    }
  }

  lemma RefusedRegistration(t: Table, r: RoomId, c: ClientId, token: string, order: seq<ClientId>)
    requires Register(t, r, c, token, order).1.Err?
    ensures Register(t, r, c, token, order).0 == t
  {
  }

  lemma RefusedRemoval(t: Table, ticket: Ticket, r: RoomId, c: ClientId, token: string)
    requires Remove(t, ticket, r, c, token).1.Err?
    ensures Remove(t, ticket, r, c, token).0 == t
  {
    hide Survivors, PromotionOf, IssueSfuLeave;
  }

  /** A step of the same client in another room, one that is refused, or one that finds it offline. */
  lemma OwnStuck(t: Table, step: Step, r: RoomId, c: ClientId)
    requires Stuck(RoomAt(t, r), c) && !Recovers(t, step, r, c)
    requires (step.RegisterStep? || step.DeregisterStep? || step.RemoveStep?) && step.client == c
    ensures RoomAt(Apply(t, step), r) == RoomAt(t, r)
  {
    hide Register, Remove, LeaveOrWait;
    if step.RegisterStep? {
      if step.room == r { RefusedRegistration(t, r, c, step.token, step.order); }
      else { RegisterElsewhere(t, step.room, c, step.token, step.order, r); }
    } else if step.RemoveStep? {
      if step.room == r { RefusedRemoval(t, step.ticket, r, c, step.token); }
      else { RemoveElsewhere(t, step.ticket, step.room, c, step.token, r); }
    } else if step.room != r {
      DeregisterElsewhere(t, step.now, step.room, c, r);
    }
  }

  lemma RegisterRecovers(t: Table, r: RoomId, c: ClientId, token: string, order: seq<ClientId>)
    requires Register(t, r, c, token, order).1.Ok?
    ensures !Stuck(RoomAt(Register(t, r, c, token, order).0, r), c)
  {
    hide QueuedFor;
  }

  lemma RemoveRecovers(t: Table, ticket: Ticket, r: RoomId, c: ClientId, token: string)
    requires Remove(t, ticket, r, c, token).1.Ok?
    ensures !Stuck(RoomAt(Remove(t, ticket, r, c, token).0, r), c)
  {
    hide Survivors, PromotionOf, PutOrReap;
    var rest := WithoutMember(t.rooms[r], c);
    PutOrReapAt(t, r, rest);
    PutOrReapAt(t, r, Survivors(rest));
    SurvivorsOffline(rest, c);
  }

  lemma RecoveryEnds(t: Table, step: Step, r: RoomId, c: ClientId)
    requires Recovers(t, step, r, c)
    ensures !Stuck(RoomAt(Apply(t, step), r), c)
  {
    hide Register, Remove, Stuck;
    if step.RegisterStep? { RegisterRecovers(t, r, c, step.token, step.order); }
    else { RemoveRecovers(t, step.ticket, r, c, step.token); }
  }

  lemma SeenToBy(step: Step, trail: seq<Move>, c: ClientId)
    requires AllMade(step, trail) && !step.TimeoutStep?
    requires !((step.RegisterStep? || step.DeregisterStep? || step.RemoveStep?) && step.client == c)
    ensures forall m :: m in trail ==> !SeesTo(m, c)
  {
  }

  lemma StepStuck(t: Table, step: Step, r: RoomId, c: ClientId, acks: Acks)
    requires Core(t, acks, true) && ProperOrders(t, step) && !ReachesFailRoom(t, step) && Stuck(RoomAt(t, r), c)
    ensures Stuck(RoomAt(Apply(t, step), r), c) <==> !Recovers(t, step, r, c)
  {
    assert OkOpt(RoomAt(t, r), true) && RoomsOk(t, false) by { Weaken(t, true); }
    assert SlotAt(t, r, acks, true) && OkAt(t, r, true);
    hide Apply, Core, ProperOrders, ReachesFailRoom, RoomsOk, EndsJoin, EndsLeave, Stuck, SlotAt, OkAt, OkOpt, AllMade,
         Recovers;
    if Recovers(t, step, r, c) {
      RecoveryEnds(t, step, r, c);
    } else if step.TimeoutStep? {
      TimeoutUnattended(t, step, r, c, acks);
    } else if EndsJoin(t, step, r) || EndsLeave(t, step, r) {
      ResultUnattended(t, step, r, c, acks);
    } else if (step.RegisterStep? || step.DeregisterStep? || step.RemoveStep?) && step.client == c {
      OwnStuck(t, step, r, c);
    } else {
      var trail := OrdinaryMoves(t, step, r);
      SeenToBy(step, trail, c);
      TrailStuck(RoomAt(t, r), trail, RoomAt(Apply(t, step), r), c);
    }
  }

  /** What ends this: the member's own registration, or a removal of it that is accepted, and nothing else. */
  lemma StuckExactly(config: Config, run: Run, k: nat, r: RoomId, c: ClientId)
    requires k < |run| && Proper(config, run) && Unfailed(config, run) && Patient(config, run)
    requires Stuck(RoomAt(At(config, run, k), r), c)
    ensures Stuck(RoomAt(At(config, run, k + 1), r), c) <==> !Recovers(At(config, run, k), run[k], r, c)
  {
    hide Apply, ProperOrders, ReachesFailRoom, LeavesJoiner, After, Core, Stuck, AcksOf, Recovers;
    TameAt(config, run, k, true);
    UnfailedAt(config, run, k);
    Prefix(config, run, k);
    StepStuck(At(config, run, k), run[k], r, c, AcksOf(config, run[..k]));
  }

  /** Until then no timeout takes the member out of the room, however long it is away. */
  lemma {:induction false} StuckStays(config: Config, run: Run, r: RoomId, c: ClientId, i: nat, j: nat)
    requires i <= j <= |run| && Proper(config, run) && Unfailed(config, run) && Patient(config, run)
    requires Stuck(RoomAt(At(config, run, i), r), c)
    requires forall k :: i <= k < j ==> !Recovers(At(config, run, k), run[k], r, c)
    ensures Stuck(RoomAt(At(config, run, j), r), c)
    decreases j
  {
    hide ProperOrders, ReachesFailRoom, LeavesJoiner, After, Stuck, Recovers;
    if i < j {
      StuckStays(config, run, r, c, i, j - 1);
      StuckExactly(config, run, j - 1, r, c);
    }
  }

  // ---- events that reach nobody ----

  /** A signal of worker `i` that can be relayed: for a member of a room relayed by `i`, under the present ids. */
  ghost predicate Routable(t: Table, i: InstanceId, signal: Signal) {
    && signal.room in t.rooms && signal.client in t.rooms[signal.room].members
    && t.rooms[signal.room].mode == Sfu && t.rooms[signal.room].instance == Some(i)
    && t.rooms[signal.room].assignmentEpoch == signal.assignmentEpoch
    && t.rooms[signal.room].members[signal.client].lifecycle == signal.lifecycle
  }

  lemma RefusedExactly(t: Table, connection: ConnectionId, i: InstanceId, event: Event)
    requires IsFresh(t, connection, i, event)
    ensures var done := HandleEvent(t, connection, i, event);
            && (done.1.Err? <==> event.kind.SignalEvent? && !Routable(t, i, event.kind.signal))
            && (done.1.Err? ==> done.0.actions == t.actions)
  {
    hide Remember;
  }

  lemma {:induction false} HeardGrows(config: Config, run: Run, i: InstanceId, a: nat, b: nat)
    requires a <= b <= |run|
    ensures HeardIn(config, run[..a], i) <= HeardIn(config, run[..b], i)
    decreases b
  {
    hide Heard, After;
    if a < b {
      HeardGrows(config, run, i, a, b - 1);
      assert run[..b][..b - 1] == run[..b - 1];
    }
  }

  /** A fresh signal that cannot be relayed is refused without an acknowledgement, but its id is remembered: while it is
      among the last 4096 that the worker has delivered, every repetition is acknowledged and relayed to nobody, even
      if the signal could be relayed by then. */
  lemma RefusedIsLost(config: Config, run: Run, k: nat, j: nat, connection: ConnectionId)
    requires k < j <= |run| && Proper(config, run) && run[k].EventStep? && run[k].event.kind.SignalEvent?
    requires IsFresh(At(config, run, k), run[k].connection, run[k].instance, run[k].event)
    requires !Routable(At(config, run, k), run[k].instance, run[k].event.kind.signal)
    requires run[k].instance in At(config, run, j).workers
    requires At(config, run, j).workers[run[k].instance].connection == Some(connection)
    requires |HeardIn(config, run[..j], run[k].instance)|
             <= |HeardIn(config, run[..k], run[k].instance)| + EVENT_DEDUP_CAPACITY
    ensures At(config, run, k + 1).actions == At(config, run, k).actions
    ensures HandleEvent(At(config, run, j), connection, run[k].instance, run[k].event)
            == (Push(At(config, run, j), SfuOut(EventAck(connection, run[k].event.id))), Ok(()))
  {
    hide HandleEvent, After, HeardIn;
    var i, event := run[k].instance, run[k].event;
    Prefix(config, run, k);
    RefusedExactly(At(config, run, k), run[k].connection, i, event);
    HeardGrows(config, run, i, k + 1, j);
    HeardNext(config, run, i, k);
    Shorter(config, run, j);
    RedeliveryOnlyAcks(config, run[..j], connection, i, event);
    var before, heard := HeardIn(config, run[..k], i), HeardIn(config, run[..j], i);
    assert heard[|before|] == event.id;
    assert event.id in Last(heard, EVENT_DEDUP_CAPACITY) by { InLast(heard, EVENT_DEDUP_CAPACITY, |before|); }
  }

  lemma HeardNext(config: Config, run: Run, i: InstanceId, k: nat)
    requires k < |run|
    ensures HeardIn(config, run[..k + 1], i) == HeardIn(config, run[..k], i) + Heard(At(config, run, k), run[k], i)
  {
    hide Heard, After;
    assert run[..k + 1][..k] == run[..k];
  }

  lemma InLast(s: seq<nat>, n: nat, x: nat)
    requires x < |s| && |s| <= x + n
    ensures s[x] in Last(s, n)
  {
    if |s| > n { assert s[|s| - n..][x - (|s| - n)] == s[x]; }
  }
}
