/** Rooms that have failed: what fails a room, that it stays so, and what becomes of the frames that its members send. */
module V2Failures {
  import opened Wrappers
  import opened Collections
  import opened Sfu
  import opened V2State
  import opened V2Steps
  import opened V2Rooms
  import opened V2Moves
  import opened V2RoomSteps
  import opened V2Slots
  import opened V2SlotTimers
  import opened V2RoomViews
  import opened V2Presence
  import opened V2Runs
  import opened V2Histories

  ghost predicate FailedAt(a: Option<Room>) {
    a.Some? && a.value.mode == Failed
  }

  /** Everybody here was there before, and what was queued then is queued still. */
  ghost predicate Fewer(a: map<ClientId, Member>, b: map<ClientId, Member>) {
    forall c :: c in b ==> c in a && a[c].queue <= b[c].queue
  }

  /** A failed room, later: failed still, under the same epoch, with nobody new in it and nothing taken from a queue. */
  ghost predicate StillFailed(a: Option<Room>, b: Option<Room>) {
    a.Some? && (b.Some? ==>
      && b.value.mode == Failed && b.value.signalEpoch == a.value.signalEpoch
      && Fewer(a.value.members, b.value.members))
  }

  /** Whether the room fails, and that a failed one stays so. */
  ghost predicate FailsBy(a: Option<Room>, b: Option<Room>, fails: bool) {
    && (FailedAt(a) ==> StillFailed(a, b))
    && (!FailedAt(a) ==> (FailedAt(b) <==> fails))
    && (fails ==> a.Some? && FailedAt(b) && b.value.signalEpoch == a.value.signalEpoch)
  }

  lemma FailedSurvivors(room: Room)
    requires room.mode == Failed
    ensures Survivors(room) == room
  {
  }

  lemma FailedIdle(a: Option<Room>)
    requires OkOpt(a, true) && FailedAt(a)
    ensures a.value.upgrade.None?
  {
  }

  lemma MoveFails(a: Option<Room>, m: Move)
    requires OkOpt(a, true) && Enabled(a, m) && Ordinary(m)
    ensures FailedAt(a) ==> StillFailed(a, Moved(a, m))
    ensures FailedAt(Moved(a, m)) ==> FailedAt(a)
  {
    hide OkOpt, Survivors, SortedSeq, Relabelled;
    if FailedAt(a) { FailedIdle(a); }
    if m.Departed? {
      var kept := a.value.(members := a.value.members - m.gone);
      SurvivorsSame(kept);
      if a.value.mode == Failed { FailedSurvivors(kept); }
    }
  }

  lemma {:induction false} TrailFails(a: Option<Room>, trail: seq<Move>, b: Option<Room>)
    requires a.Some? && OkOpt(a, true) && Follows(a, trail, b) && Ordinaries(trail)
    requires forall m :: m in trail ==> !m.Created?
    ensures FailedAt(a) ==> StillFailed(a, b)
    ensures FailedAt(b) ==> FailedAt(a)
    decreases |trail|
  {
    hide OkOpt, Enabled, Moved;
    if trail != [] {
      var a1, rest := Moved(a, trail[0]), trail[1..];
      assert trail[0] in trail && forall m :: m in rest ==> m in trail;
      MoveKeepsRoom(a, trail[0], true);
      MoveFails(a, trail[0]);
      if a1.Some? { TrailFails(a1, rest, b); }
      else if b.Some? { Persists(a1, rest, b); }
    }
  }

  lemma ResultFails(t: Table, step: Step, r: RoomId)
    requires EndsJoin(t, step, r) || EndsLeave(t, step, r)
    ensures FailsBy(RoomAt(t, r), RoomAt(Apply(t, step), r), false)
  {
    hide Apply, JoinAccepted, LeaveSucceeds, Armed;
    if EndsJoin(t, step, r) {
      JoinEndIs(t, step, r);
    } else {
      LeaveEndIs(t, step, r);
      var c := t.pending[step.result.id].client;
      ArmedSame(t.dwell, WithoutMember(t.rooms[r].(pendingLeave := None), c), step.now);
    }
  }

  /** The step expires the worker of room `r`, which is relayed by it. */
  ghost predicate Fails(t: Table, step: Step, r: RoomId) {
    step.TimeoutStep? && HostIn(t, step.schedule.workers, r) && t.rooms[r].mode == Sfu
  }

  lemma TimeoutFails(t: Table, step: Step, r: RoomId, acks: Acks)
    requires Core(t, acks, false) && step.TimeoutStep? && ProperOrders(t, step) && r in t.rooms
    ensures FailsBy(RoomAt(t, r), RoomAt(Apply(t, step), r), Fails(t, step, r))
  {
    hide Core, SweptTo, Apply, ProperOrders, ExpiredRoom, AbortedRoom;
    var found, grace := TimeoutAt(t, step, r, acks, false);
    var order, b := Listing(step.schedule.members, r), RoomAt(Apply(t, step), r);
    if HostIn(t, step.schedule.workers, r) {
      AfterExpiryMode(t.rooms[r]);
      ExpiredSame(t.rooms[r]);
    }
    SweptFails(found.value, b, step.now, order, grace);
  }

  lemma OrdinaryFails(t: Table, step: Step, r: RoomId)
    requires RoomsOk(t, true) && ProperOrders(t, step) && !step.TimeoutStep? && !ReachesFailRoom(t, step) && r in t.rooms
    requires !EndsJoin(t, step, r) && !EndsLeave(t, step, r)
    ensures FailsBy(RoomAt(t, r), RoomAt(Apply(t, step), r), false)
  {
    assert OkOpt(RoomAt(t, r), true) && RoomsOk(t, false) by { Weaken(t, true); }
    hide Apply, ProperOrders, ReachesFailRoom, OkOpt, RoomsOk, EndsJoin, EndsLeave, StillFailed;
    var trail := OrdinaryMoves(t, step, r);
    TrailFails(RoomAt(t, r), trail, RoomAt(Apply(t, step), r));
  }

  lemma StepFails(t: Table, step: Step, r: RoomId, acks: Acks)
    requires Core(t, acks, false) && ProperOrders(t, step) && !ReachesFailRoom(t, step) && r in t.rooms
    ensures FailsBy(RoomAt(t, r), RoomAt(Apply(t, step), r), Fails(t, step, r))
  {
    assert RoomsOk(t, true);
    hide Apply, Core, ProperOrders, ReachesFailRoom, RoomsOk, EndsJoin, EndsLeave, FailsBy, Fails;
    if step.TimeoutStep? {
      TimeoutFails(t, step, r, acks);
    } else {
      NotFails(t, step, r);
      if EndsJoin(t, step, r) || EndsLeave(t, step, r) {
        ResultFails(t, step, r);
      } else {
        OrdinaryFails(t, step, r);
      }
    }
  }

  lemma NotFails(t: Table, step: Step, r: RoomId)
    requires !step.TimeoutStep?
    ensures !Fails(t, step, r)
  {
  }

  /** A room fails exactly when the worker that relays it expires. */
  lemma FailsExactly(config: Config, run: Run, k: nat, r: RoomId)
    requires k < |run| && Proper(config, run) && Unfailed(config, run)
    requires r in At(config, run, k).rooms && At(config, run, k).rooms[r].mode != Failed
    ensures FailedAt(RoomAt(At(config, run, k + 1), r)) <==> Fails(At(config, run, k), run[k], r)
  {
    hide Apply, After, AcksOf, Core, Fails;
    TameAt(config, run, k, false);
    Prefix(config, run, k);
    StepFails(At(config, run, k), run[k], r, AcksOf(config, run[..k]));
  }

  /** Failure is final: for the rest of its life the room stays failed, under the same epoch, nobody new comes in, and
      what a member has queued stays queued. */
  lemma {:induction false} FailedIsFinal(config: Config, run: Run, r: RoomId, i: nat, j: nat)
    requires i <= j <= |run| && Proper(config, run) && Unfailed(config, run) && Lives(config, run, r, i, j)
    requires At(config, run, i).rooms[r].mode == Failed
    ensures var a, b := At(config, run, i).rooms[r], At(config, run, j).rooms[r];
            b.mode == Failed && b.signalEpoch == a.signalEpoch && Fewer(a.members, b.members)
    decreases j
  {
    hide Apply, ProperOrders, ReachesFailRoom, After, Core, AcksOf, Fewer;
    FewerSame(At(config, run, i).rooms[r].members);
    if i < j {
      FailedIsFinal(config, run, r, i, j - 1);
      TameAt(config, run, j - 1, false);
      Prefix(config, run, j - 1);
      StepFails(At(config, run, j - 1), run[j - 1], r, AcksOf(config, run[..j - 1]));
      FewerStill(At(config, run, i).rooms[r].members, At(config, run, j - 1).rooms[r].members,
                 At(config, run, j).rooms[r].members);
    }
  }

  lemma FewerSame(a: map<ClientId, Member>)
    ensures Fewer(a, a)
  {
  }

  lemma FewerStill(a: map<ClientId, Member>, b: map<ClientId, Member>, c: map<ClientId, Member>)
    requires Fewer(a, b) && Fewer(b, c)
    ensures Fewer(a, c)
  {
  }

  // ---- frames in a failed room ----

  /** The browser that a frame of `c` would go to: the first other member in iteration order, if it is connected. */
  ghost predicate Reaches(room: Room, order: seq<ClientId>, c: ClientId, peer: ClientId) {
    FirstOther(order, c) == Some(peer) && Online(Some(room), peer)
  }

  /** A failed room handles a frame under its epoch as a direct room does. */
  lemma FailedRoomSends(t: Table, r: RoomId, c: ClientId, message: string, order: seq<ClientId>, peer: ClientId)
    requires r in t.rooms && t.rooms[r].mode == Failed && c in t.rooms[r].members
    ensures var room := t.rooms[r];
            var (t', sent) := Send(t, r, c, room.signalEpoch, message, order);
            && (sent == Ok(ToPeer(Some(Delivery(r, peer, message)))) <==> Reaches(room, order, c, peer))
            && ((forall p :: !Reaches(room, order, c, p)) ==>
                  if |room.members[c].queue| >= MAX_QUEUED_MESSAGES then t' == t && sent == Err("RESOURCE_EXHAUSTED")
                  else sent == Ok(ToPeer(None)) && r in t'.rooms && c in t'.rooms[r].members
                       && t'.rooms[r].members[c].queue == room.members[c].queue + [message])
  {
    var first := FirstOther(order, c);
    if first.Some? && Online(RoomAt(t, r), first.value) { assert Reaches(t.rooms[r], order, c, first.value); }
  }

  /** A failed room keeps the epoch of the relayed room it was. So a frame that a browser stamped while its media was
      relayed, to be told to the worker, reaches another browser if and only if the first other member in iteration
      order is connected. If that one is not, the frame is queued, or is refused because the queue is full. */
  lemma FailureRelays(config: Config, run: Run, r: RoomId, k: nat, j: nat, c: ClientId, message: string,
                      order: seq<ClientId>, peer: ClientId)
    requires k < j <= |run| && Proper(config, run) && Unfailed(config, run) && Lives(config, run, r, k, j)
    requires At(config, run, k).rooms[r].mode == Sfu && At(config, run, k + 1).rooms[r].mode == Failed
    requires c in At(config, run, j).rooms[r].members
    ensures var room := At(config, run, j).rooms[r];
            var (t', sent) := Send(At(config, run, j), r, c, At(config, run, k).rooms[r].signalEpoch, message, order);
            && (sent == Ok(ToPeer(Some(Delivery(r, peer, message)))) <==> Reaches(room, order, c, peer))
            && ((forall p :: !Reaches(room, order, c, p)) ==>
                  if |room.members[c].queue| >= MAX_QUEUED_MESSAGES then
                    t' == At(config, run, j) && sent == Err("RESOURCE_EXHAUSTED")
                  else sent == Ok(ToPeer(None)) && r in t'.rooms && c in t'.rooms[r].members
                       && t'.rooms[r].members[c].queue == room.members[c].queue + [message])
  {
    hide Apply, After, AcksOf, Core, Send, Reaches, Fewer;
    TameAt(config, run, k, false);
    Prefix(config, run, k);
    StepFails(At(config, run, k), run[k], r, AcksOf(config, run[..k]));
    FailedIsFinal(config, run, r, k + 1, j);
    FailedRoomSends(At(config, run, j), r, c, message, order, peer);
  }

  /** A frame that is queued in a failed room stays queued for as long as the room lives and its sender is in it: no
      registration hands it on, and no step takes it out. It reaches nobody. */
  lemma QueuedForGood(config: Config, run: Run, r: RoomId, i: nat, j: nat, c: ClientId, message: string, d: ClientId,
                      token: string, order: seq<ClientId>)
    requires i <= j <= |run| && Proper(config, run) && Unfailed(config, run) && Lives(config, run, r, i, j)
    requires At(config, run, i).rooms[r].mode == Failed
    requires c in At(config, run, j).rooms[r].members
    requires c in At(config, run, i).rooms[r].members && message in At(config, run, i).rooms[r].members[c].queue
    ensures message in At(config, run, j).rooms[r].members[c].queue
    ensures var (t', registered) := V2Steps.Register(At(config, run, j), r, d, token, order);
            && (registered.Ok? ==> registered.value.queued == [])
            && r in t'.rooms && c in t'.rooms[r].members
            && t'.rooms[r].members[c].queue == At(config, run, j).rooms[r].members[c].queue
  {
    hide After, V2Steps.Register;
    FailedIsFinal(config, run, r, i, j);
    RegisterTakesNothing(At(config, run, j), r, d, token, order, c);
  }

  lemma RegisterTakesNothing(t: Table, r: RoomId, d: ClientId, token: string, order: seq<ClientId>, c: ClientId)
    requires r in t.rooms && t.rooms[r].mode == Failed && c in t.rooms[r].members
    ensures var (t', registered) := V2Steps.Register(t, r, d, token, order);
            && (registered.Ok? ==> registered.value.queued == [])
            && r in t'.rooms && c in t'.rooms[r].members && t'.rooms[r].members[c].queue == t.rooms[r].members[c].queue
  {
  }
}
