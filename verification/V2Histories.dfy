/** Whole runs again: what holds between two states of a run. */
module V2Histories {
  import opened Wrappers
  import opened Collections
  import opened Sfu
  import opened V2State
  import opened V2Steps
  import opened V2Rooms
  import opened V2Moves
  import opened V2RoomSteps
  import opened V2Commands
  import opened V2Slots
  import opened V2SlotSteps
  import opened V2SlotTimers
  import opened V2RoomViews
  import opened V2Fresh
  import opened V2Channel
  import opened V2Sessions
  import V2Timers
  import opened V2Rollback
  import opened V2Reconnect
  import opened V2Runs

  lemma ShapeAfter(config: Config, run: Run, k: nat, e1: bool)
    requires k <= |run| && Proper(config, run) && (e1 ==> Unfailed(config, run))
    ensures Base(At(config, run, k)) && RoomsOk(At(config, run, k), e1)
  {
    hide Core, Base, After, Proper, Unfailed;
    Shorter(config, run, k);
    Reachable(config, run[..k]);
    if e1 {
      TameRun(config, run[..k], false);
      CoreCommands(At(config, run, k), AcksOf(config, run[..k]), false);
    } else {
      BaseShapes(At(config, run, k));
    }
  }

  lemma BaseShapes(t: Table)
    requires Base(t)
    ensures RoomsOk(t, false) && CommandsOk(t) && FreshOk(t)
  {
  }

  // ---- signal epochs ----

  /** The parity of the epoch tells the mode: even for direct media, odd for relayed. */
  lemma EpochParity(config: Config, run: Run, r: RoomId)
    requires Proper(config, run) && r in After(config, run).rooms
    ensures var room := After(config, run).rooms[r];
            && (room.mode == P2p || room.mode == Upgrading ==> room.signalEpoch % 2 == 0)
            && (room.mode == Sfu ==> room.signalEpoch % 2 == 1)
  {
    hide After;
    Reachable(config, run);
    assert RoomOk(After(config, run).rooms[r], false);
  }

  /** A frame stamped in one mode is never accepted in the other, however the room has changed. */
  lemma FramesKeepToTheirMode(config: Config, run: Run, i: nat, j: nat, r: RoomId, c: ClientId, message: string,
                              order: seq<ClientId>)
    requires Proper(config, run) && i <= |run| && j <= |run|
    requires r in At(config, run, i).rooms && r in At(config, run, j).rooms
    requires var a, b := At(config, run, i).rooms[r].mode, At(config, run, j).rooms[r].mode;
             (a == Sfu && (b == P2p || b == Upgrading)) || ((a == P2p || a == Upgrading) && b == Sfu)
    ensures Send(At(config, run, j), r, c, At(config, run, i).rooms[r].signalEpoch, message, order)
            == (At(config, run, j), Ok(Dropped))
  {
    hide After, Send;
    Shorter(config, run, i);
    Shorter(config, run, j);
    EpochParity(config, run[..i], r);
    EpochParity(config, run[..j], r);
    OtherEpochDropped(At(config, run, j), r, c, At(config, run, i).rooms[r].signalEpoch, message, order);
  }

  lemma OtherEpochDropped(t: Table, r: RoomId, c: ClientId, epoch: nat, message: string, order: seq<ClientId>)
    requires r in t.rooms && t.rooms[r].signalEpoch != epoch
    ensures Send(t, r, c, epoch, message, order) == (t, Ok(Dropped))
  {
  }

  lemma MoveEpoch(a: Option<Room>, m: Move)
    requires Enabled(a, m) && a.Some? && Moved(a, m).Some?
    ensures a.value.signalEpoch <= Moved(a, m).value.signalEpoch
  {
    hide Armed, DowngradeEligible;
    if m.LeaveEnded? { ArmedEpoch(m.dwell, WithoutMember(a.value.(pendingLeave := None), m.client), m.now); }
  }

  lemma ArmedEpoch(dwell: nat, room: Room, now: Instant)
    ensures Armed(dwell, room, now).signalEpoch == room.signalEpoch
  {
  }

  lemma {:induction false} TrailEpoch(a: Option<Room>, trail: seq<Move>, b: Option<Room>)
    requires Follows(a, trail, b) && (forall m :: m in trail ==> !m.Created?) && b.Some?
    ensures a.Some? && a.value.signalEpoch <= b.value.signalEpoch
    decreases |trail|
  {
    hide Enabled, Moved;
    if trail != [] {
      assert trail[0] in trail;
      NothingFromNothing(a, trail[0]);
      assert forall m :: m in trail[1..] ==> m in trail;
      TrailEpoch(Moved(a, trail[0]), trail[1..], b);
      MoveEpoch(a, trail[0]);
    }
  }

  lemma StepEpoch(t: Table, step: Step, r: RoomId)
    requires RoomsOk(t, false) && ProperOrders(t, step) && r in t.rooms && r in Apply(t, step).rooms
    ensures t.rooms[r].signalEpoch <= Apply(t, step).rooms[r].signalEpoch
  {
    hide RoomsOk, ProperOrders, Apply, Follows, AllMade;
    var trail := StepTrail(t, step, r);
    TrailEpoch(RoomAt(t, r), trail, RoomAt(Apply(t, step), r));
  }

  /** The room exists in every state from `i` to `j`: one lifetime. */
  ghost predicate Lives(config: Config, run: Run, r: RoomId, i: nat, j: nat)
    requires i <= j <= |run|
  {
    forall k :: i <= k <= j ==> r in At(config, run, k).rooms
  }

  /** Within a lifetime the epoch never decreases. */
  lemma {:induction false} EpochGrows(config: Config, run: Run, r: RoomId, i: nat, j: nat)
    requires i <= j <= |run| && Proper(config, run) && Lives(config, run, r, i, j)
    ensures At(config, run, i).rooms[r].signalEpoch <= At(config, run, j).rooms[r].signalEpoch
    decreases j
  {
    hide Apply, ProperOrders, After, Base;
    if i < j {
      EpochGrows(config, run, r, i, j - 1);
      ShapeAfter(config, run, j - 1, false);
      Prefix(config, run, j - 1);
      StepEpoch(At(config, run, j - 1), run[j - 1], r);
    }
  }

  // ---- initiators ----

  /** Roles: a P2P room has one or two members and exactly one initiator, an SFU room has none, and a
      room due for a downgrade is small and has nobody joining. */
  lemma Roles(config: Config, run: Run, r: RoomId)
    requires Proper(config, run) && Unfailed(config, run) && r in After(config, run).rooms
    ensures var room := After(config, run).rooms[r];
            && (room.mode == P2p ==>
                  1 <= |room.members| <= 2
                  && exists c :: c in room.members && room.members[c].isInitiator
                       && forall d :: d in room.members && room.members[d].isInitiator ==> d == c)
            && (room.mode == Sfu ==> forall c :: c in room.members ==> !room.members[c].isInitiator)
            && (room.downgradeDeadline.Some? ==> |room.members| <= 2 && room.pendingJoin.None?)
  {
    hide After, Base;
    ShapeAfter(config, run, |run|, true);
    Whole(config, run);
    var room := After(config, run).rooms[r];
    assert RoomOk(room, true);
    if room.mode == P2p {
      var c :| IsSoleInitiator(room.members, c);
      MemberCounts(room.members, c, room.members[c]);
    }
  }

  /** A downgrade elects the member with the least id. */
  lemma DowngradeElects(t: Table, r: RoomId, order: seq<ClientId>)
    requires r in t.rooms && DowngradeEligible(t.rooms[r])
    ensures r in CommitDowngrade(t, r, order).rooms
    ensures var room := CommitDowngrade(t, r, order).rooms[r];
            && room.mode == P2p && room.members.Keys == t.rooms[r].members.Keys
            && forall c :: c in room.members ==>
                 (room.members[c].isInitiator <==> forall d :: d in room.members ==> c <= d)
  {
    hide CommitDowngrade;
    DowngradeRooms(t, r, order);
    var room := DowngradedRoom(t.rooms[r]);
    assert room.members.Keys == t.rooms[r].members.Keys;
    var least := Least(t.rooms[r].members.Keys);
    assert least in room.members;
  }

  // ---- lifecycle ids ----

  /** Of two Joins ever sent for the same member of the same room, the later has the higher id. */
  lemma LifecyclesIncrease(config: Config, run: Run, p: RequestId, q: RequestId)
    requires Proper(config, run) && p < q
    requires var issued := After(config, run).issued;
             && p in issued && q in issued && issued[p].kind.JoinCommand? && issued[q].kind.JoinCommand?
             && issued[p].kind.join.room == issued[q].kind.join.room
             && issued[p].kind.join.client == issued[q].kind.join.client
    ensures After(config, run).issued[p].kind.join.lifecycle < After(config, run).issued[q].kind.join.lifecycle
  {
    hide After, CommandsOk, RoomsOk, WorkerTimers, WindowAt;
    Reachable(config, run);
    var t := After(config, run);
    assert p in JoinsOf(t) && q in JoinsOf(t) && SameMember(JoinsOf(t)[p], JoinsOf(t)[q]);
  }

  lemma {:induction false} IssuedStays(config: Config, run: Run, i: nat, j: nat, q: RequestId)
    requires i <= j <= |run| && Proper(config, run) && q in At(config, run, i).issued
    ensures q in At(config, run, j).issued && At(config, run, j).issued[q] == At(config, run, i).issued[q]
    decreases j
  {
    hide Apply, ProperOrders, After, Base, CommandsOk;
    if i < j {
      IssuedStays(config, run, i, j - 1, q);
      ShapeAfter(config, run, j - 1, false);
      BaseShapes(At(config, run, j - 1));
      Prefix(config, run, j - 1);
      StepContinues(At(config, run, j - 1), run[j - 1]);
    }
  }

  /** `issued` is the history of commands: a command once in flight stays in it, as it was. */
  lemma IssuedForever(config: Config, run: Run, i: nat, j: nat, q: RequestId)
    requires i <= j <= |run| && Proper(config, run)
    requires q in At(config, run, i).unacked
    ensures q in At(config, run, j).issued && At(config, run, j).issued[q] == At(config, run, i).unacked[q]
  {
    ShapeAfter(config, run, i, false);
    BaseShapes(At(config, run, i));
    assert IsIssued(At(config, run, i), At(config, run, i).unacked[q]);
    IssuedStays(config, run, i, j, q);
    hide Base, CommandsOk, After;
  }

  // ---- the command ledger ----

  /** The three command maps have the same keys, and each command carries its own key. */
  lemma CommandMapsAgree(config: Config, run: Run)
    requires Proper(config, run)
    ensures var t := After(config, run);
            && t.pending.Keys == t.unacked.Keys == t.owners.Keys
            && forall q :: q in t.unacked ==> t.unacked[q].id == q && Matches(t.pending[q], t.unacked[q].kind)
  {
    hide After, Base;
    Reachable(config, run);
    BaseShapes(After(config, run));
  }

  // ---- reconnection ----

  /** The plan under request id `q` is `p` from just after step `w` on, up to state `j`. */
  ghost predicate PlanStands(config: Config, run: Run, q: RequestId, p: PendingCommand, w: nat, j: nat)
    requires w <= j <= |run|
  {
    forall v :: w < v <= j ==> q in At(config, run, v).pending && At(config, run, v).pending[q] == p
  }

  /** Every plan in flight was made by its worker registering, and has not changed since. */
  lemma {:induction false} PlansComeFromRegistrations(config: Config, run: Run, j: nat, q: RequestId) returns (w: nat)
    requires j <= |run| && Proper(config, run)
    requires q in At(config, run, j).pending && At(config, run, j).pending[q].SyncPending?
    ensures var p := At(config, run, j).pending[q];
            && w < j && run[w].WorkerStep? && q !in At(config, run, w).issued
            && PlannedAt(At(config, run, w), p, run[w].instance) && PlanStands(config, run, q, p, w, j)
    decreases j
  {
    hide Apply, ProperOrders, After, PlannedAt;
    var p := At(config, run, j).pending[q];
    NoSteps(config, run);
    if j > 0 {
      var t := At(config, run, j - 1);
      ShapeAfter(config, run, j - 1, false);
      BaseShapes(t);
      Prefix(config, run, j - 1);
      StepPlans(t, run[j - 1], q);
      hide Base;
      if q in t.pending && t.pending[q] == p {
        w := PlansComeFromRegistrations(config, run, j - 1, q);
      } else {
        w := j - 1;
      }
    }
  }

  lemma NoSteps(config: Config, run: Run)
    ensures At(config, run, 0) == EmptyTable(config.grace, config.dwell)
  {
    assert run[..0] == [];
  }

  /** Nothing is sent again before its own room is synchronised. If a command issued by state `i` is pushed by step
      `j`, then step `j` is the matching RoomSynced of a SyncRoom for the room of that command, to the worker that had
      it in flight when it registered, in step `w`, and so planned its replay; the plan has stood unchanged since. */
  lemma ResentOnlyAfterItsSync(config: Config, run: Run, i: nat, j: nat, k: nat) returns (w: nat)
    requires i <= j < |run| && Proper(config, run) && !run[j].PollStep?
    requires |At(config, run, j).actions| <= k < |At(config, run, j + 1).actions|
    requires IsCommand(At(config, run, j + 1).actions[k])
    requires At(config, run, j + 1).actions[k].output.command.id in At(config, run, i).issued
    ensures ReplaysNow(At(config, run, j), run[j])
    ensures var command := At(config, run, j + 1).actions[k].output.command;
            var q := run[j].result.id;
            var p := At(config, run, j).pending[q];
            && CommandRoom(command) == p.room && p.instance == run[j].instance
            && w < j && run[w].WorkerStep? && run[w].instance == p.instance
            && InFlight(At(config, run, w), command, p.instance, p.room)
            && q !in At(config, run, w).issued && PlanStands(config, run, q, p, w, j)
  {
    hide Apply, After, Base, CommandsOk, ProperOrders, InFlight;
    var t := At(config, run, j);
    ShapeAfter(config, run, j, false);
    BaseShapes(t);
    Prefix(config, run, j);
    var command := At(config, run, j + 1).actions[k].output.command;
    IssuedStays(config, run, i, j, command.id);
    NothingResent(t, run[j], k);
    w := PlansComeFromRegistrations(config, run, j, run[j].result.id);
  }

  // ---- channels ----

  ghost function AcceptedIn(config: Config, run: Run, i: nat, j: nat, r: RoomId, c: ClientId): seq<string>
    requires i <= j <= |run|
    decreases j
  {
    if i == j then []
    else AcceptedIn(config, run, i, j - 1, r, c) + Accepted(At(config, run, j - 1), run[j - 1], r, c)
  }

  ghost function HandedIn(config: Config, run: Run, i: nat, j: nat, r: RoomId, c: ClientId): seq<string>
    requires i <= j <= |run|
    decreases j
  {
    if i == j then []
    else HandedIn(config, run, i, j - 1, r, c) + Handed(At(config, run, j - 1), run[j - 1], r, c)
  }

  /** From state `i` to state `j` the room stays direct and nobody of the pair leaves. Upgrades may
      come and be given up in between. */
  ghost predicate ChannelOpen(config: Config, run: Run, i: nat, j: nat, r: RoomId, c: ClientId)
    requires i <= j <= |run|
  {
    forall k :: i <= k < j ==> Stays(RoomAt(At(config, run, k), r), RoomAt(At(config, run, k + 1), r), c)
  }

  /** First in, first out: what was queued, then all that is accepted, is all that is handed on, then
      what is still queued. Nothing is lost, repeated or overtaken. */
  lemma {:induction false} ChannelIsFifo(config: Config, run: Run, i: nat, j: nat, r: RoomId, c: ClientId)
    requires i <= j <= |run| && Proper(config, run) && Unfailed(config, run) && ChannelOpen(config, run, i, j, r, c)
    ensures QueueAt(RoomAt(At(config, run, i), r), c) + AcceptedIn(config, run, i, j, r, c)
            == HandedIn(config, run, i, j, r, c) + QueueAt(RoomAt(At(config, run, j), r), c)
    decreases j
  {
    hide Apply, ProperOrders, ReachesFailRoom, After, Stays, QueueAt, Accepted, Handed, Base, RoomsOk;
    if i < j {
      var t := At(config, run, j - 1);
      ChannelIsFifo(config, run, i, j - 1, r, c);
      ShapeAfter(config, run, j - 1, true);
      Prefix(config, run, j - 1);
      StepChannel(t, run[j - 1], r, c);
      FifoStep(QueueAt(RoomAt(At(config, run, i), r), c), AcceptedIn(config, run, i, j - 1, r, c),
               HandedIn(config, run, i, j - 1, r, c), QueueAt(RoomAt(t, r), c),
               Accepted(t, run[j - 1], r, c), Handed(t, run[j - 1], r, c),
               QueueAt(RoomAt(At(config, run, j), r), c));
    }
  }

  lemma FifoStep(q0: seq<string>, accepted: seq<string>, handed: seq<string>, q1: seq<string>,
                 more: seq<string>, out: seq<string>, q2: seq<string>)
    requires q0 + accepted == handed + q1 && q1 + more == out + q2
    ensures q0 + (accepted + more) == (handed + out) + q2
  {
    assert q0 + (accepted + more) == (q0 + accepted) + more;
    assert (handed + q1) + more == handed + (q1 + more);
    assert handed + (out + q2) == (handed + out) + q2;
  }

  /** While a member is connected, its peer in a P2P room has nothing queued. */
  lemma ConnectedPeerHasNothingQueued(config: Config, run: Run, r: RoomId, c: ClientId, d: ClientId)
    requires Proper(config, run) && Unfailed(config, run)
    requires r in After(config, run).rooms
    requires var room := After(config, run).rooms[r];
             room.mode == P2p && c in room.members && d in room.members && c != d && room.members[c].registered
    ensures After(config, run).rooms[r].members[d].queue == []
  {
    hide After, Base;
    ShapeAfter(config, run, |run|, true);
    Whole(config, run);
    assert RoomOk(After(config, run).rooms[r], true);
  }

  // ---- repeated events ----

  /** The event ids that worker `i` has delivered for the first time, in order. */
  ghost function HeardIn(config: Config, run: Run, i: InstanceId): seq<nat> {
    if run == [] then []
    else HeardIn(config, run[..|run| - 1], i) + Heard(After(config, run[..|run| - 1]), run[|run| - 1], i)
  }

  lemma LastOfLast(s: seq<nat>, more: seq<nat>, n: nat)
    ensures Last(Last(s, n) + more, n) == Last(s + more, n)
  {
  }

  /** The window is the last 4096 of them, without repetition, and the set is its elements. */
  lemma {:induction false} WindowSlides(config: Config, run: Run, i: InstanceId)
    requires Proper(config, run)
    ensures SeenBy(After(config, run), i) == Last(HeardIn(config, run, i), EVENT_DEDUP_CAPACITY)
    ensures i in After(config, run).workers ==>
              var worker := After(config, run).workers[i];
              && NoDuplicates(worker.seenOrder) && |worker.seenOrder| <= EVENT_DEDUP_CAPACITY
              && worker.seen == (set x | x in worker.seenOrder)
  {
    hide Apply, ProperOrders, Base;
    Reachable(config, run);
    assert WindowAt(After(config, run), i) by { BaseWindow(After(config, run), i); }
    if run == [] {
    } else {
      var before := run[..|run| - 1];
      LastStep(config, run);
      WindowSlides(config, before, i);
      Reachable(config, before);
      BaseWindow(After(config, before), i);
      StepWindow(After(config, before), run[|run| - 1], i);
      LastOfLast(HeardIn(config, before, i), Heard(After(config, before), run[|run| - 1], i), EVENT_DEDUP_CAPACITY);
    }
    hide WindowAt, Heard;
  }

  lemma BaseWindow(t: Table, i: InstanceId)
    requires Base(t)
    ensures WindowAt(t, i)
  {
  }

  /** Redelivering any of the last 4096 events draws an acknowledgement and changes nothing else. */
  lemma RedeliveryOnlyAcks(config: Config, run: Run, connection: ConnectionId, i: InstanceId, event: Event)
    requires Proper(config, run) && i in After(config, run).workers
    requires After(config, run).workers[i].connection == Some(connection) && event.id != 0
    ensures event.id in Last(HeardIn(config, run, i), EVENT_DEDUP_CAPACITY) ==>
              HandleEvent(After(config, run), connection, i, event)
              == (Push(After(config, run), SfuOut(EventAck(connection, event.id))), Ok(()))
    ensures event.id in Last(HeardIn(config, run, i), EVENT_DEDUP_CAPACITY) <==>
              !IsFresh(After(config, run), connection, i, event)
  {
    hide After, Base, HandleEvent, IsFresh, HeardIn, WindowAt;
    WindowSlides(config, run, i);
    Reachable(config, run);
    BaseWindow(After(config, run), i);
    RepeatOnlyAcks(After(config, run), connection, i, event);
  }

  // ---- timeouts ----

  /** No P2P room of a tame run is empty. */
  lemma NoEmptyRooms(config: Config, run: Run)
    requires Proper(config, run) && Unfailed(config, run)
    ensures forall r: RoomId :: !V2Timers.EmptyP2p(After(config, run), r)
  {
    hide After, Base;
    ShapeAfter(config, run, |run|, true);
    Whole(config, run);
    var t := After(config, run);
    forall r: RoomId ensures !V2Timers.EmptyP2p(t, r) {
      if r in t.rooms { assert RoomOk(t.rooms[r], true); }
    }
  }

  /** In a tame run a timeout does nothing when `poll_timeout` reports nothing due; and, if the grace is not zero,
      only then. */
  lemma TimeoutIdle(config: Config, run: Run, now: Instant, s: Schedule, next: Option<Instant>)
    requires Proper(config, run) && Unfailed(config, run)
    requires TimeoutOrders(After(config, run), now, s) && IsNextTimeout(After(config, run), next)
    ensures next.None? || now < next.value ==> HandleTimeout(After(config, run), now, s) == (After(config, run), [])
    ensures 0 < After(config, run).grace && HandleTimeout(After(config, run), now, s) == (After(config, run), []) ==>
              next.None? || now < next.value
  {
    hide After, Base, HandleTimeout, TimeoutOrders, RoomsOk, V2Timers.EmptyP2p, IsNextTimeout, V2Timers.NothingDue;
    NoEmptyRooms(config, run);
    ShapeAfter(config, run, |run|, false);
    Whole(config, run);
    var t := After(config, run);
    V2Timers.NothingDueFromPoll(t, now, next);
    if V2Timers.NothingDue(t, now) { V2Timers.Quiescence(t, now, s); }
    if 0 < t.grace { V2Timers.QuiescenceExact(t, now, s); }
  }

  // ---- rollback ----

  /** From state `i`, a P2P room, to state `j`, in the middle of the upgrade begun after `i`. */
  ghost predicate UpgradesFrom(config: Config, run: Run, r: RoomId, i: nat, j: nat)
    requires i < j <= |run|
  {
    && r in At(config, run, i).rooms && At(config, run, i).rooms[r].mode == P2p
    && forall k :: i < k <= j ==> r in At(config, run, k).rooms && At(config, run, k).rooms[r].mode == Upgrading
  }

  lemma {:induction false} SeatsThroughUpgrade(config: Config, run: Run, r: RoomId, i: nat, j: nat)
    requires i < j <= |run| && Proper(config, run) && Unfailed(config, run) && UpgradesFrom(config, run, r, i, j)
    ensures SameSeats(At(config, run, i).rooms[r], At(config, run, j).rooms[r])
    decreases j
  {
    hide Apply, ProperOrders, ReachesFailRoom, After, SameSeats, Base, RoomsOk;
    ShapeAfter(config, run, j - 1, true);
    Prefix(config, run, j - 1);
    StepSeats(At(config, run, j - 1), run[j - 1], r);
    if i < j - 1 {
      SeatsThroughUpgrade(config, run, r, i, j - 1);
      SeatsTransitive(At(config, run, i).rooms[r], At(config, run, j - 1).rooms[r], At(config, run, j).rooms[r]);
    }
  }

  /** The room as an abort after the first `j` steps leaves it is the room before the upgrade: the same
      two members with the same tokens, roles and queues, under the same signal epoch, unassigned. */
  ghost predicate RolledBack(before: Room, back: Room) {
    && back.mode == P2p && back.instance.None? && back.upgrade.None?
    && back.pendingJoin.None? && back.pendingLeave.None? && back.downgradeDeadline.None?
    && back.signalEpoch == before.signalEpoch
    && back.members.Keys == before.members.Keys && |back.members| == 2
    && forall c :: c in back.members ==>
         && back.members[c].token == before.members[c].token
         && back.members[c].isInitiator == before.members[c].isInitiator
         && back.members[c].queue == before.members[c].queue
  }

  lemma SeatsMean(before: Room, room: Room)
    requires RoomOk(before, true) && before.mode == P2p && RoomOk(room, true) && room.mode == Upgrading
    requires SameSeats(before, room)
    ensures RolledBack(before, AbortedRoom(room))
  {
    AbortRestores(room);
    var back := AbortedRoom(room);
    assert Party(before) == before.members.Keys;
    assert Seats(back) == Seats(before);
    forall c | c in back.members
      ensures back.members[c].token == before.members[c].token
              && back.members[c].isInitiator == before.members[c].isInitiator
              && back.members[c].queue == before.members[c].queue
    {
      assert Seats(back)[c] == Seats(before)[c];
    }
    hide AbortedRoom;
  }

  /** The step answers a Join of the barrier of room `r`, from the connected worker, but does not acknowledge it. */
  ghost predicate BadJoin(t: Table, step: Step, r: RoomId) {
    && step.ResultStep? && step.instance in t.workers && t.workers[step.instance].connection == Some(step.connection)
    && step.result.id in t.pending
    && var p := t.pending[step.result.id];
       p.UpgradeJoin? && p.join.room == r && !(p.instance == step.instance && Joined(step.result, p.join))
  }

  lemma BadJoinAborts(t: Table, step: Step, r: RoomId)
    requires BadJoin(t, step, r)
    ensures Apply(t, step) == AbortUpgrade(Forget(t, {step.result.id}), r, ErrorReason(step.result)).0
  {
    hide AbortUpgrade, Joined, ErrorReason;
  }

  /** A bad join result rolls the upgrade back. */
  lemma ResultRollsBack(config: Config, run: Run, r: RoomId, i: nat, j: nat)
    requires i < j < |run| && Proper(config, run) && Unfailed(config, run) && UpgradesFrom(config, run, r, i, j)
    requires BadJoin(At(config, run, j), run[j], r)
    ensures r in At(config, run, j + 1).rooms && RolledBack(At(config, run, i).rooms[r], At(config, run, j + 1).rooms[r])
  {
    SeatsThroughUpgrade(config, run, r, i, j);
    ShapeAfter(config, run, i, true);
    ShapeAfter(config, run, j, true);
    Prefix(config, run, j);
    var t := At(config, run, j);
    assert RoomOk(At(config, run, i).rooms[r], true) && RoomOk(t.rooms[r], true);
    hide Apply, After, SameSeats, Base, RoomsOk, RolledBack, BadJoin;
    SeatsMean(At(config, run, i).rooms[r], t.rooms[r]);
    BadJoinAborts(t, run[j], r);
    AbortRooms(Forget(t, {run[j].result.id}), r, ErrorReason(run[j].result));
  }

  /** Expiry of its worker rolls the upgrade back, before the sweep looks at the room; any other expiry leaves the
      room as it is. */
  lemma ExpiryRollsBack(config: Config, run: Run, r: RoomId, i: nat, j: nat)
    requires i < j < |run| && Proper(config, run) && Unfailed(config, run) && UpgradesFrom(config, run, r, i, j)
    requires run[j].TimeoutStep?
    ensures var t, s := At(config, run, j), run[j].schedule;
            var mid := ExpireWorkers(t, s.workers, s.hosted);
            && r in mid.rooms && t.rooms[r].instance.Some?
            && if t.rooms[r].instance.value in s.workers then RolledBack(At(config, run, i).rooms[r], mid.rooms[r])
               else mid.rooms[r] == t.rooms[r]
  {
    hide After, AcksOf, SameSeats, RolledBack, ExpireWorkers, Core, RoomOk, ProperOrders, ExpiryOrders;
    SeatsThroughUpgrade(config, run, r, i, j);
    RoomOkAt(config, run, i, r);
    TameAt(config, run, j, false);
    var t, s := At(config, run, j), run[j].schedule;
    ExpiryProper(t, run[j]);
    ExpiryRestores(t, s, r, At(config, run, i).rooms[r], AcksOf(config, run[..j]));
  }

  lemma ExpiryProper(t: Table, step: Step)
    requires step.TimeoutStep? && ProperOrders(t, step)
    ensures ExpiryOrders(t, step.schedule.workers, step.schedule.hosted)
    ensures forall i :: i in step.schedule.workers ==> i in t.workers && Due(t.workers[i].deadline, step.now)
  {
    hide ExpiryOrders, ExpireWorkers;
    assert forall i :: i in step.schedule.workers ==> i in DueWorkers(t, step.now);
  }

  lemma RoomOkAt(config: Config, run: Run, k: nat, r: RoomId)
    requires k <= |run| && Proper(config, run) && Unfailed(config, run) && r in At(config, run, k).rooms
    ensures RoomOk(At(config, run, k).rooms[r], true)
  {
    hide After, Base, RoomOk;
    ShapeAfter(config, run, k, true);
  }

  lemma ExpiryRestores(t: Table, s: Schedule, r: RoomId, before: Room, acks: Acks)
    requires Core(t, acks, false) && ExpiryOrders(t, s.workers, s.hosted)
    requires r in t.rooms && t.rooms[r].mode == Upgrading
    requires RoomOk(before, true) && before.mode == P2p && SameSeats(before, t.rooms[r])
    ensures var mid := ExpireWorkers(t, s.workers, s.hosted);
            && r in mid.rooms && t.rooms[r].instance.Some?
            && if t.rooms[r].instance.value in s.workers then RolledBack(before, mid.rooms[r])
               else mid.rooms[r] == t.rooms[r]
  {
    assert SlotAt(t, r, acks, false) && RoomOk(t.rooms[r], true);
    hide SameSeats, RolledBack, ExpireWorkers, RoomsOk, CommandsOk;
    SeatsMean(before, t.rooms[r]);
    ExpiredRooms(t, s.workers, s.hosted, r, acks, false);
    hide RoomOk, AbortedRoom;
  }

  /** What is in flight fits the rooms after every prefix of a tame run. */
  lemma TameAt(config: Config, run: Run, k: nat, e2: bool)
    requires k <= |run| && Proper(config, run) && Unfailed(config, run) && (e2 ==> Patient(config, run))
    ensures Core(At(config, run, k), AcksOf(config, run[..k]), e2)
    ensures k < |run| ==> ProperOrders(At(config, run, k), run[k])
  {
    Shorter(config, run, k);
    TameRun(config, run[..k], e2);
    hide Core, Proper, Unfailed, Patient, After, AcksOf;
  }

  lemma BadJoinTells(t: Table, step: Step, r: RoomId, acks: Acks)
    requires BadJoin(t, step, r) && r in t.rooms && BarrierShape(r, t.rooms[r], acks)
    ensures TellsWorker(t, Apply(t, step), r, ErrorReason(step.result))
  {
    BadJoinAborts(t, step, r);
    var t1 := Forget(t, {step.result.id});
    assert t1.rooms == t.rooms && t1.workers == t.workers && t1.actions == t.actions && t1.nextRequest == t.nextRequest;
    AbortLeaves(t1, r, ErrorReason(step.result), acks);
    hide Forget, Apply, BadJoin, ErrorReason, BarrierShape, AbortUpgrade, TellsWorker;
    TellsSame(t, t1, Apply(t, step), r, ErrorReason(step.result));
  }

  /** A bad join result sends a connected worker Leaves for exactly the members it acknowledged, in order, each under
      the acknowledged lifecycle id and assignment epoch, and a disconnected worker none; then it answers the
      admission. */
  lemma AbortTellsWorker(config: Config, run: Run, step: Step, r: RoomId)
    requires Proper(config, run) && Unfailed(config, run)
    requires r in After(config, run).rooms && After(config, run).rooms[r].mode == Upgrading
    requires BadJoin(After(config, run), step, r)
    ensures var t := After(config, run);
            var room := t.rooms[r];
            && room.instance.Some? && room.upgrade.Some?
            && (forall c :: c in room.members ==>
                  (c in room.upgrade.value.joined <==> Acked(AcksOf(config, run), r, room, c)))
            && NoDuplicates(room.upgrade.value.joined)
            && TellsWorker(t, Apply(t, step), r, ErrorReason(step.result))
  {
    TameRun(config, run, false);
    Reachable(config, run);
    var t := After(config, run);
    var acks := AcksOf(config, run);
    assert SlotAt(t, r, acks, false);
    hide After, AcksOf, CommandsOk, RoomsOk, WorkerTimers, WindowAt, AcksOk, Apply, BadJoin, TellsWorker;
    JoinedExactly(t, r, acks);
    assert BarrierShape(r, t.rooms[r], acks);
    hide SlotAt, FreshOk;
    JoinedOnce(r, t.rooms[r], acks);
    BadJoinTells(t, step, r, acks);
  }

  /** The expiry of workers sends nothing to anybody. */
  lemma ExpirySendsNothing(config: Config, run: Run, j: nat)
    requires j < |run| && Proper(config, run) && Unfailed(config, run) && run[j].TimeoutStep?
    ensures var t, s := At(config, run, j), run[j].schedule;
            var mid := ExpireWorkers(t, s.workers, s.hosted);
            && mid.nextRequest == t.nextRequest && t.actions <= mid.actions
            && forall k :: |t.actions| <= k < |mid.actions| ==> !IsCommand(mid.actions[k])
  {
    hide After, AcksOf, Core, ExpireWorkers, ProperOrders, ExpiryOrders, CommandsOk, RoomsOk, FreshOk, WindowAt;
    var t, s := At(config, run, j), run[j].schedule;
    TameAt(config, run, j, false);
    ShapeAfter(config, run, j, false);
    ExpiryProper(t, run[j]);
    assert WorkerTimers(t);
    ExpirySilent(t, s.workers, s.hosted, AcksOf(config, run[..j]), false);
  }

  lemma JoinedOnce(r: RoomId, room: Room, acks: Acks)
    requires BarrierShape(r, room, acks)
    ensures NoDuplicates(room.upgrade.value.joined)
  {
    var rest := room.members.Keys - {room.upgrade.value.joining};
    SortedSeqLists(rest);
    assert NoDuplicates(room.upgrade.value.ordered);
  }
}
