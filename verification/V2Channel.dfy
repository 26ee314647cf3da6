/** The direct channel between two members: what a member sends is handed on once, in order. */
module V2Channel {
  import opened Wrappers
  import opened Collections
  import opened Sfu
  import opened V2State
  import opened V2Steps
  import opened V2Rooms
  import opened V2Moves
  import opened V2RoomSteps

  ghost predicate Direct(a: Option<Room>) {
    a.Some? && (a.value.mode == P2p || a.value.mode == Upgrading)
  }

  /** The members that talk directly: everyone but the client an upgrade is adding. */
  ghost function Party(room: Room): set<ClientId> {
    if room.upgrade.Some? then room.members.Keys - {room.upgrade.value.joining} else room.members.Keys
  }

  /** The channel of `c` goes on: the room stays direct, and `c` and its peer stay in it. */
  ghost predicate Stays(a: Option<Room>, b: Option<Room>, c: ClientId) {
    Direct(a) && Direct(b) && c in Party(a.value) && Party(a.value) <= b.value.members.Keys
  }

  ghost function QueueAt(a: Option<Room>, c: ClientId): seq<string> {
    if a.Some? && c in a.value.members then a.value.members[c].queue else []
  }

  /** The message of `c` that the step accepts. */
  ghost function Accepted(t: Table, step: Step, r: RoomId, c: ClientId): seq<string> {
    if step.SendStep? && step.room == r && step.client == c
       && var sent := Send(t, r, c, step.epoch, step.message, step.order).1; sent.Ok? && sent.value.ToPeer?
    then [step.message] else []
  }

  /** The messages of `c` that the step hands on: straight to the peer, or to a peer that registers. */
  ghost function Handed(t: Table, step: Step, r: RoomId, c: ClientId): seq<string> {
    match step
    case SendStep(room, client, epoch, message, order) =>
      var sent := Send(t, room, client, epoch, message, order).1;
      if room == r && client == c && sent.Ok? && sent.value.ToPeer? && sent.value.delivery.Some?
      then [sent.value.delivery.value.message] else []
    case RegisterStep(room, client, token, order) =>
      var registered := Register(t, room, client, token, order).1;
      if room == r && client != c && registered.Ok? then registered.value.queued else []
    case _ => []
  }

  // ---- moves that leave a channel alone ----

  /** Moves that neither admit, queue, register nor commit. */
  ghost predicate Passive(m: Move) {
    !m.Created? && !m.Paired? && !m.JoinBegun? && !m.UpgradeBegun? && !m.MemberRegistered? && !m.MessageQueued?
    && !m.UpgradeCommitted? && !m.ForceFailed?
  }

  ghost function KeysOf(a: Option<Room>): set<ClientId> {
    if a.Some? then a.value.members.Keys else {}
  }

  lemma PassiveShrinks(a: Option<Room>, m: Move)
    requires Enabled(a, m) && Passive(m)
    ensures KeysOf(Moved(a, m)) <= KeysOf(a)
  {
    hide Armed, DowngradeEligible, DowngradedRoom;
    if m.LeaveEnded? {
      ArmedMembers(m.dwell, WithoutMember(a.value.(pendingLeave := None), m.client), m.now);
    } else if m.RoomDowngraded? {
      DowngradedKeys(a.value);
    }
  }

  lemma DowngradedKeys(room: Room)
    requires DowngradeEligible(room)
    ensures DowngradedRoom(room).members.Keys == room.members.Keys
  {
  }

  lemma FailedStays(a: Option<Room>, m: Move)
    requires Enabled(a, m) && Passive(m) && OkOpt(a, true) && (a.Some? && a.value.mode == Failed)
    ensures Moved(a, m).Some? ==> Moved(a, m).value.mode == Failed
  {
    if m.LeaveEnded? { ArmedMode(m.dwell, WithoutMember(a.value.(pendingLeave := None), m.client), m.now); }
    hide Armed;
  }

  lemma ArmedMode(dwell: nat, room: Room, now: Instant)
    ensures Armed(dwell, room, now).mode == room.mode
  {
  }

  lemma {:induction false} FailedTrail(a: Option<Room>, trail: seq<Move>, b: Option<Room>)
    requires Follows(a, trail, b) && (forall m :: m in trail ==> Passive(m)) && OkOpt(a, true)
    requires a.None? || a.value.mode == Failed
    ensures !Direct(b)
    decreases |trail|
  {
    hide Enabled, Moved, OkOpt;
    if trail != [] {
      assert trail[0] in trail;
      if a.Some? { FailedStays(a, trail[0]); } else { NothingFromNone(a, trail[0]); }
      MoveKeepsRoom(a, trail[0], true);
      assert forall m :: m in trail[1..] ==> m in trail;
      FailedTrail(Moved(a, trail[0]), trail[1..], b);
    }
  }

  lemma NothingFromNone(a: Option<Room>, m: Move)
    requires a.None? && Enabled(a, m)
    ensures m.Created?
  {
  }

  lemma {:induction false} PassiveKeys(a: Option<Room>, trail: seq<Move>, b: Option<Room>)
    requires Follows(a, trail, b) && forall m :: m in trail ==> Passive(m)
    ensures KeysOf(b) <= KeysOf(a)
    decreases |trail|
  {
    hide Enabled, Moved;
    if trail != [] {
      assert trail[0] in trail;
      PassiveShrinks(a, trail[0]);
      assert forall m :: m in trail[1..] ==> m in trail;
      PassiveKeys(Moved(a, trail[0]), trail[1..], b);
    }
  }

  /** A passive move out of a direct room drops a party member, leaves the room undirected for good,
      or changes no queue. */
  lemma PassiveQueue(a: Option<Room>, m: Move, c: ClientId)
    requires Enabled(a, m) && Passive(m) && OkOpt(a, true) && Direct(a) && c in Party(a.value)
    ensures var b := Moved(a, m);
            || b.None? || b.value.mode == Failed || !(Party(a.value) <= b.value.members.Keys)
            || (Direct(b) && Party(b.value) == Party(a.value) && QueueAt(b, c) == QueueAt(a, c))
  {
    if m.Departed? {
      DepartureDropsParty(a.value, m.gone);
    } else if m.UpgradeAborted? {
      AbortKeepsParty(a.value, c);
    } else {
      OtherPassive(a, m, c);
    }
    hide Enabled, Moved, QueueAt, Direct, OkOpt, Passive, Party;
  }

  lemma DepartureDropsParty(room: Room, gone: set<ClientId>)
    requires Enabled(Some(room), Departed(gone)) && OkOpt(Some(room), true) && Direct(Some(room))
    ensures var b := Moved(Some(room), Departed(gone)); b.None? || !(Party(room) <= b.value.members.Keys)
  {
    hide Survivors;
    DepartedKeys(room, gone);
    var d :| d in gone;
  }

  lemma AbortKeepsParty(room: Room, c: ClientId)
    requires Enabled(Some(room), UpgradeAborted) && OkOpt(Some(room), true) && Direct(Some(room)) && c in Party(room)
    ensures var b := Moved(Some(room), UpgradeAborted);
            b.Some? && (b.value.mode == Failed ||
              (Direct(b) && Party(b.value) == Party(room) && QueueAt(b, c) == QueueAt(Some(room), c)))
  {
    assert AbortedRoom(room).members.Keys == Party(room);
  }

  lemma OtherPassive(a: Option<Room>, m: Move, c: ClientId)
    requires Enabled(a, m) && Passive(m) && OkOpt(a, true) && Direct(a) && c in Party(a.value)
    requires !m.Departed? && !m.UpgradeAborted?
    ensures var b := Moved(a, m);
            || b.None? || b.value.mode == Failed || !(Party(a.value) <= b.value.members.Keys)
            || (Direct(b) && Party(b.value) == Party(a.value) && QueueAt(b, c) == QueueAt(a, c))
  {
    hide Survivors, Armed, AbortedRoom, DowngradedRoom, BarrierRoom, CommittedRoom, RegisteredMembers;
  }

  lemma DepartedKeys(room: Room, gone: set<ClientId>)
    ensures Survivors(room.(members := room.members - gone)).members.Keys == room.members.Keys - gone
    ensures Survivors(room.(members := room.members - gone)).upgrade == room.upgrade
  {
  }

  lemma {:induction false} PassiveTrail(a: Option<Room>, trail: seq<Move>, b: Option<Room>, c: ClientId)
    requires Follows(a, trail, b) && (forall m :: m in trail ==> Passive(m)) && OkOpt(a, true) && Stays(a, b, c)
    ensures QueueAt(b, c) == QueueAt(a, c)
    decreases |trail|
  {
    hide Enabled, Moved, OkOpt, QueueAt, Party;
    if trail != [] {
      var a1 := Moved(a, trail[0]);
      assert trail[0] in trail;
      PassiveQueue(a, trail[0], c);
      MoveKeepsRoom(a, trail[0], true);
      assert forall m :: m in trail[1..] ==> m in trail;
      PassiveKeys(a1, trail[1..], b);
      if a1.None? || a1.value.mode == Failed {
        FailedTrail(a1, trail[1..], b);
        assert false;
      } else {
        PassiveTrail(a1, trail[1..], b, c);
      }
    }
  }

  // ---- steps ----

  lemma PassiveMade(step: Step, trail: seq<Move>)
    requires AllMade(step, trail) && Unforced(trail)
    requires step.DeregisterStep? || step.RemoveStep? || step.WorkerStep? || step.EventStep? || step.LostStep?
             || step.TimeoutStep? || step.PollStep?
    ensures forall m :: m in trail ==> Passive(m)
  {
  }

  /** An admission leaves queues alone, and so does a result unless it commits an upgrade. */
  lemma OtherMoveQueue(a: Option<Room>, m: Move, c: ClientId)
    requires Enabled(a, m) && OkOpt(a, true) && !m.ForceFailed? && !m.MemberRegistered? && !m.MessageQueued?
    requires Stays(a, Moved(a, m), c)
    ensures QueueAt(Moved(a, m), c) == QueueAt(a, c)
  {
    hide Survivors, Armed;
    if Passive(m) { PassiveQueue(a, m, c); }
  }

  /** The queues of everyone else, listed, are the queue of the only other member. */
  lemma OnlyQueue(members: map<ClientId, Member>, c: ClientId, d: ClientId, order: seq<ClientId>)
    requires |members| <= 2 && c in members && d in members && c != d && Lists(order, members.Keys)
    ensures QueuedFor(members, d, order) == members[c].queue
  {
    OnlyPeer(members, c, d);
    ListsLength(order, members.Keys);
    assert |members.Keys| == 2 by { assert members.Keys == {c, d}; }
    assert order[0] in order && order[1] in order && order[0] != order[1];
    assert order[1..] == [order[1]] && order[1..][1..] == [];
    assert QueuedFor(members, d, order[1..][1..]) == [];
    if order[0] == c {
      assert order[1] == d;
      assert members[c].queue + [] == members[c].queue;
    } else {
      assert order[1] == c;
    }
  }

  lemma RegisterChannel(t: Table, r: RoomId, d: ClientId, token: string, order: seq<ClientId>, c: ClientId)
    requires RoomsOk(t, true) && ListsMembers(t, r, order)
    requires Stays(RoomAt(t, r), RoomAt(Register(t, r, d, token, order).0, r), c)
    ensures var step := RegisterStep(r, d, token, order);
            QueueAt(RoomAt(t, r), c) + Accepted(t, step, r, c)
            == Handed(t, step, r, c) + QueueAt(RoomAt(Register(t, r, d, token, order).0, r), c)
  {
    assert RoomOk(t.rooms[r], true);
    if Register(t, r, d, token, order).1.Ok? && c != d {
      OnlyQueue(t.rooms[r].members, c, d, order);
    }
    hide RoomOk, Lists, QueuedFor;
  }

  /** A message that overtakes nothing: when the peer is connected, the queue is empty. */
  lemma DirectSend(room: Room, c: ClientId, peer: ClientId)
    requires RoomOk(room, true) && room.mode == P2p && c in room.members && peer in room.members && peer != c
    requires room.members[peer].registered
    ensures room.members[c].queue == []
  {
  }

  /** A direct delivery goes to a connected peer, and says what was sent. */
  lemma DeliveredToPeer(t: Table, r: RoomId, d: ClientId, epoch: nat, message: string, order: seq<ClientId>)
    requires var sent := Send(t, r, d, epoch, message, order).1; sent.Ok? && sent.value.ToPeer? && sent.value.delivery.Some?
    ensures var peer := FirstOther(order, d);
            && r in t.rooms && peer.Some? && d in t.rooms[r].members && peer.value in t.rooms[r].members
            && t.rooms[r].members[peer.value].registered && t.rooms[r].mode != Upgrading
            && Send(t, r, d, epoch, message, order).1.value.delivery.value == Delivery(r, peer.value, message)
  {
  }

  lemma SendChannel(t: Table, r: RoomId, d: ClientId, epoch: nat, message: string, order: seq<ClientId>, c: ClientId)
    requires RoomsOk(t, true) && ListsMembers(t, r, order)
    requires Stays(RoomAt(t, r), RoomAt(Send(t, r, d, epoch, message, order).0, r), c)
    ensures var step := SendStep(r, d, epoch, message, order);
            QueueAt(RoomAt(t, r), c) + Accepted(t, step, r, c)
            == Handed(t, step, r, c) + QueueAt(RoomAt(Send(t, r, d, epoch, message, order).0, r), c)
  {
    hide RoomsOk, Send, Lists, FirstOther, Stays, RoomOk;
    OkFor(t, r);
    var trail := SendTrail(t, r, d, epoch, message, order, r);
    var sent := Send(t, r, d, epoch, message, order).1;
    if sent.Ok? && sent.value.ToPeer? && sent.value.delivery.Some? && c == d {
      DeliveredToPeer(t, r, d, epoch, message, order);
      FirstOtherFacts(order, d);
      assert t.rooms[r].mode == P2p by { DirectMode(t, r, Send(t, r, d, epoch, message, order).0, c); }
      DirectSend(t.rooms[r], c, FirstOther(order, d).value);
    }
    assert trail != [] ==> trail[1..] == [];
  }

  lemma OkFor(t: Table, r: RoomId)
    requires RoomsOk(t, true)
    ensures OkAt(t, r, false) && OkAt(t, r, true)
  {
  }

  lemma DirectMode(t: Table, r: RoomId, t': Table, c: ClientId)
    requires r in t.rooms && Stays(RoomAt(t, r), RoomAt(t', r), c)
    ensures t.rooms[r].mode == P2p || t.rooms[r].mode == Upgrading
  {
  }

  /** A step about another room, seen from room `r`. */
  lemma ElsewhereChannel(t: Table, step: Step, r: RoomId, c: ClientId)
    requires RoomsOk(t, true) && ProperOrders(t, step) && !ReachesFailRoom(t, step)
    requires step.RegisterStep? || step.SendStep?
    requires step.room != r
    ensures RoomAt(Apply(t, step), r) == RoomAt(t, r)
  {
    hide Enqueue, RegisteredMembers, QueuedFor, Send;
    if step.SendStep? { SendElsewhere(t, step.room, step.client, step.epoch, step.message, step.order, r); }
  }

  lemma SendElsewhere(t: Table, r: RoomId, c: ClientId, epoch: nat, message: string, order: seq<ClientId>, s: RoomId)
    requires s != r
    ensures RoomAt(Send(t, r, c, epoch, message, order).0, s) == RoomAt(t, s)
  {
  }

  lemma ShortTrail(a: Option<Room>, trail: seq<Move>, b: Option<Room>, c: ClientId)
    requires Follows(a, trail, b) && |trail| <= 1 && Unforced(trail) && OkOpt(a, true) && Stays(a, b, c)
    requires forall m :: m in trail ==> !m.MemberRegistered? && !m.MessageQueued?
    ensures QueueAt(b, c) == QueueAt(a, c)
  {
    hide Enabled, Moved;
    if trail != [] {
      assert trail[0] in trail && trail[1..] == [];
      OtherMoveQueue(a, trail[0], c);
    }
  }

  /** One step of a channel: what was queued, then what is accepted, is what is handed on, then what
      is queued now. */
  lemma StepChannel(t: Table, step: Step, r: RoomId, c: ClientId)
    requires RoomsOk(t, true) && ProperOrders(t, step) && !ReachesFailRoom(t, step)
    requires Stays(RoomAt(t, r), RoomAt(Apply(t, step), r), c)
    ensures QueueAt(RoomAt(t, r), c) + Accepted(t, step, r, c)
            == Handed(t, step, r, c) + QueueAt(RoomAt(Apply(t, step), r), c)
  {
    if step.RegisterStep? {
      if step.room == r { RegisterChannel(t, r, step.client, step.token, step.order, c); }
      else { ElsewhereChannel(t, step, r, c); }
    } else if step.SendStep? {
      if step.room == r { SendChannel(t, r, step.client, step.epoch, step.message, step.order, c); }
      else { ElsewhereChannel(t, step, r, c); }
    } else {
      Weaken(t, true);
      hide RoomOk, Apply, ProperOrders, ReachesFailRoom, Stays, QueueAt, Follows;
      assert OkOpt(RoomAt(t, r), true);
      var trail := StepTrail(t, step, r);
      if step.AdmitStep? || step.ResultStep? {
        OtherMade(step, trail);
        ShortTrail(RoomAt(t, r), trail, RoomAt(Apply(t, step), r), c);
      } else {
        PassiveMade(step, trail);
        PassiveTrail(RoomAt(t, r), trail, RoomAt(Apply(t, step), r), c);
      }
    }
  }

  lemma OtherMade(step: Step, trail: seq<Move>)
    requires AllMade(step, trail) && (step.AdmitStep? || step.ResultStep?)
    ensures forall m :: m in trail ==> !m.MemberRegistered? && !m.MessageQueued?
  {
  }
}
