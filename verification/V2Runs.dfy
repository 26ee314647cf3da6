/** Whole runs of the authority, from an empty table: the main results. */
module V2Runs {
  import opened Wrappers
  import opened Collections
  import opened Sfu
  import opened V2State
  import opened V2Steps
  import opened V2Rooms
  import opened V2Moves
  import opened V2RoomSteps
  import opened V2Commands
  import opened V2Slots
  import opened V2SlotSteps
  import opened V2SlotTimers
  import V2Ledger
  import opened V2Tickets
  import opened V2Fresh
  import opened V2Sessions
  import opened V2Rollback

  datatype Config = Config(grace: nat, dwell: nat)

  type Run = seq<Step>

  /** The table after a run. */
  ghost function After(config: Config, run: Run): Table {
    if run == [] then EmptyTable(config.grace, config.dwell)
    else Apply(After(config, run[..|run| - 1]), run[|run| - 1])
  }

  /** The table after the first `k` steps of a run. */
  ghost function At(config: Config, run: Run, k: nat): Table
    requires k <= |run|
  {
    After(config, run[..k])
  }

  /** Each step iterates over hash maps in orders it could meet. */
  ghost predicate Proper(config: Config, run: Run) {
    forall k :: 0 <= k < |run| ==> ProperOrders(At(config, run, k), run[k])
  }

  /** E1: no step reaches `fail_room`. */
  ghost predicate Unfailed(config: Config, run: Run) {
    forall k :: 0 <= k < |run| ==> !ReachesFailRoom(At(config, run, k), run[k])
  }

  /** E2: no Leave goes out for a client whose own SfuJoin is in flight. */
  ghost predicate Patient(config: Config, run: Run) {
    forall k :: 0 <= k < |run| ==> !LeavesJoiner(At(config, run, k), run[k])
  }

  /** The Joins acknowledged in a run. */
  ghost function AcksOf(config: Config, run: Run): Acks {
    if run == [] then {}
    else AcksAfter(After(config, run[..|run| - 1]), AcksOf(config, run[..|run| - 1]), run[|run| - 1])
  }

  // ---- prefixes ----

  lemma Prefix(config: Config, run: Run, k: nat)
    requires k < |run|
    ensures At(config, run, k + 1) == Apply(At(config, run, k), run[k])
  {
    hide Apply;
    assert run[..k + 1][..k] == run[..k] && run[..k + 1][k] == run[k];
  }

  lemma Whole(config: Config, run: Run)
    ensures At(config, run, |run|) == After(config, run)
  {
    assert run[..|run|] == run;
  }

  /** The assumptions hold of a prefix when they hold of the run. */
  lemma Shorter(config: Config, run: Run, k: nat)
    requires k <= |run|
    ensures Proper(config, run) ==> Proper(config, run[..k])
    ensures Unfailed(config, run) ==> Unfailed(config, run[..k])
    ensures Patient(config, run) ==> Patient(config, run[..k])
  {
    hide ProperOrders, ReachesFailRoom, LeavesJoiner, After;
    assert forall j :: 0 <= j < k ==> run[..k][..j] == run[..j] && run[..k][j] == run[j];
  }

  /** A nonempty run, as its last step after the rest. */
  lemma LastStep(config: Config, run: Run)
    requires run != []
    ensures var before := run[..|run| - 1];
            var last := run[|run| - 1];
            && After(config, run) == Apply(After(config, before), last)
            && (Proper(config, run) ==> Proper(config, before) && ProperOrders(After(config, before), last))
            && (Unfailed(config, run) ==> Unfailed(config, before) && !ReachesFailRoom(After(config, before), last))
            && (Patient(config, run) ==> Patient(config, before) && !LeavesJoiner(After(config, before), last))
  {
    hide Apply, ProperOrders, ReachesFailRoom, LeavesJoiner;
    Shorter(config, run, |run| - 1);
  }

  // ---- what holds after every run ----

  /** No assumption on the environment. */
  ghost predicate Base(t: Table) {
    && CommandsOk(t) && RoomsOk(t, false) && FreshOk(t) && WorkerTimers(t)
    && forall i: InstanceId :: WindowAt(t, i)
  }

  lemma StepBase(t: Table, step: Step)
    requires Base(t) && ProperOrders(t, step)
    ensures Base(Apply(t, step))
  {
    hide CommandsOk, RoomsOk, FreshOk, WorkerTimers, WindowAt, Apply, ProperOrders, EmitsFresh;
    StepLog(t, step);
    StepKeepsRooms(t, step, false);
    StepFresh(t, step);
    StepWorkerTimers(t, step);
    forall i: InstanceId ensures WindowAt(Apply(t, step), i) {
      StepWindow(t, step, i);
    }
  }

  lemma EmptyBase(grace: nat, dwell: nat)
    ensures Base(EmptyTable(grace, dwell))
  {
  }

  lemma {:induction false} Reachable(config: Config, run: Run)
    requires Proper(config, run)
    ensures Base(After(config, run))
  {
    hide Base, Apply, ProperOrders, Proper;
    if run == [] {
      EmptyBase(config.grace, config.dwell);
    } else {
      LastStep(config, run);
      Reachable(config, run[..|run| - 1]);
      StepBase(After(config, run[..|run| - 1]), run[|run| - 1]);
    }
  }

  lemma EmptyCore(grace: nat, dwell: nat, e2: bool)
    ensures Core(EmptyTable(grace, dwell), {}, e2)
  {
    var t := EmptyTable(grace, dwell);
    EmptyBase(grace, dwell);
    forall s: RoomId ensures SlotAt(t, s, {}, e2) {
      assert Hosts(t.workers, s) == {};
      IdleSlot(s, ViewOf(t, s), {}, e2);
    }
  }

  /** Under E1, and E2 when `e2`. */
  lemma {:induction false} TameRun(config: Config, run: Run, e2: bool)
    requires Proper(config, run) && Unfailed(config, run) && (e2 ==> Patient(config, run))
    ensures Core(After(config, run), AcksOf(config, run), e2)
    ensures AcksOk(After(config, run), AcksOf(config, run))
  {
    hide Core, Apply, ProperOrders, ReachesFailRoom, LeavesJoiner, AcksOk, AcksAfter, Proper, Unfailed, Patient;
    if run == [] {
      EmptyCore(config.grace, config.dwell, e2);
      assert AcksOk(After(config, run), {}) by { NoAcks(After(config, run)); }
    } else {
      var before := run[..|run| - 1];
      LastStep(config, run);
      TameRun(config, before, e2);
      StepCore(After(config, before), run[|run| - 1], AcksOf(config, before), e2);
      assert CommandsOk(After(config, before)) by { CoreCommands(After(config, before), AcksOf(config, before), e2); }
      StepAcks(After(config, before), run[|run| - 1], AcksOf(config, before));
    }
  }

  lemma NoAcks(t: Table)
    ensures AcksOk(t, {})
  {
  }

  lemma CoreCommands(t: Table, acks: Acks, e2: bool)
    requires Core(t, acks, e2)
    ensures CommandsOk(t) && RoomsOk(t, true)
  {
  }

  // ---- the upgrade barrier ----

  /** In an SFU room every member but the one joining has been acknowledged by the room's worker,
      with its present lifecycle id and the room's assignment epoch. */
  lemma SfuMembersAcknowledged(config: Config, run: Run, r: RoomId, c: ClientId)
    requires Proper(config, run) && Unfailed(config, run) && Patient(config, run)
    requires var t := After(config, run);
             && r in t.rooms && t.rooms[r].mode == Sfu && c in t.rooms[r].members
             && !(t.rooms[r].pendingJoin.Some? && t.rooms[r].pendingJoin.value.client == c)
    ensures var room := After(config, run).rooms[r];
            && room.instance.Some? && room.instance.value in After(config, run).workers
            && (room.instance.value, JoinMember(r, c, room.members[c].lifecycle, room.assignmentEpoch))
               in AcksOf(config, run)
  {
    hide After, AcksOf, CommandsOk, RoomsOk;
    TameRun(config, run, true);
    var t := After(config, run);
    assert SlotAt(t, r, AcksOf(config, run), true);
    assert Hosts(t.workers, r) == {t.rooms[r].instance.value};
    assert t.rooms[r].instance.value in Hosts(t.workers, r);
  }

  /** While a room is upgrading, the barrier lists the members in order with the joiner last, has
      joined exactly the ones before its place, and one Join is in flight: the one at its place. */
  lemma BarrierInOrder(config: Config, run: Run, r: RoomId)
    requires Proper(config, run) && Unfailed(config, run)
    requires r in After(config, run).rooms && After(config, run).rooms[r].mode == Upgrading
    ensures var t := After(config, run);
            var room := t.rooms[r];
            && room.instance.Some? && room.instance.value in t.workers && room.upgrade.Some?
            && var upgrade := room.upgrade.value;
            && upgrade.joining in room.members && upgrade.next < |upgrade.ordered|
            && Lists(upgrade.ordered, room.members.Keys)
            && upgrade.ordered[|upgrade.ordered| - 1] == upgrade.joining
            && Ascending(upgrade.ordered[..|upgrade.ordered| - 1])
            && upgrade.joined == upgrade.ordered[..upgrade.next]
            && (forall c :: c in room.members ==>
                  (c in upgrade.joined <==>
                     (room.instance.value, JoinMember(r, c, room.members[c].lifecycle, room.assignmentEpoch))
                     in AcksOf(config, run)))
            && exists q :: q in t.pending
                 && t.pending[q] == UpgradeJoin(room.instance.value,
                      JoinMember(r, upgrade.ordered[upgrade.next],
                                 room.members[upgrade.ordered[upgrade.next]].lifecycle, room.assignmentEpoch))
                 && forall p :: p in t.pending && t.pending[p].UpgradeJoin? && t.pending[p].join.room == r ==> p == q
  {
    hide After, AcksOf, FreshOk, CommandsOk, RoomsOk, WorkerTimers, AcksOk;
    TameRun(config, run, false);
    Reachable(config, run);
    var t := After(config, run);
    var acks := AcksOf(config, run);
    assert SlotAt(t, r, acks, false);
    JoinedExactly(t, r, acks);
    assert t.rooms[r].instance.value in Hosts(t.workers, r);
    BarrierOrder(r, t.rooms[r], acks);
    OneJoin(t, r, acks);
  }

  lemma BarrierOrder(r: RoomId, room: Room, acks: Acks)
    requires BarrierShape(r, room, acks)
    ensures var upgrade := room.upgrade.value;
            && Lists(upgrade.ordered, room.members.Keys)
            && upgrade.ordered[|upgrade.ordered| - 1] == upgrade.joining
            && Ascending(upgrade.ordered[..|upgrade.ordered| - 1])
  {
    var upgrade := room.upgrade.value;
    var rest := room.members.Keys - {upgrade.joining};
    SortedSeqLists(rest);
    ListsSnoc(SortedSeq(rest), rest, upgrade.joining);
    assert rest + {upgrade.joining} == room.members.Keys;
    assert upgrade.ordered[..|upgrade.ordered| - 1] == SortedSeq(rest);
  }

  lemma OneJoin(t: Table, r: RoomId, acks: Acks)
    requires SlotAt(t, r, acks, false) && r in t.rooms && t.rooms[r].mode == Upgrading
    ensures var room := t.rooms[r];
            && room.instance.Some? && room.upgrade.Some? && room.upgrade.value.next < |room.upgrade.value.ordered|
            && Awaited(room) in room.members
            && exists q :: q in t.pending && t.pending[q] == UpgradeJoin(room.instance.value, JoinOf(r, room, Awaited(room)))
                 && forall p :: p in t.pending && t.pending[p].UpgradeJoin? && t.pending[p].join.room == r ==> p == q
  {
    var room := t.rooms[r];
    var slot := Slot(t.pending, UpgradeSlot, r);
    var awaited := UpgradeJoin(room.instance.value, JoinOf(r, room, Awaited(room)));
    assert Only(slot, awaited);
    var q := OnlyOne(slot, awaited);
    forall p | p in t.pending && t.pending[p].UpgradeJoin? && t.pending[p].join.room == r ensures p == q {
      assert p in slot;
    }
  }

  // ---- the worker ledger ----

  lemma {:induction false} BooksKept(config: Config, run: Run, i: InstanceId)
    requires Proper(config, run) && Unfailed(config, run) && Patient(config, run)
    ensures V2Ledger.Books(After(config, run), i)
  {
    hide Core, Apply, ProperOrders, ReachesFailRoom, LeavesJoiner, Proper, Unfailed, Patient, V2Ledger.Books;
    if run == [] {
      V2Ledger.BooksZero(After(config, run), i);
    } else {
      var before := run[..|run| - 1];
      LastStep(config, run);
      BooksKept(config, before, i);
      TameRun(config, before, true);
      V2Ledger.StepBooks(After(config, before), run[|run| - 1], i, AcksOf(config, before));
    }
  }

  /** The rooms a worker is charged with are exactly the upgrading and SFU rooms assigned to it. */
  lemma AssignedRooms(config: Config, run: Run, i: InstanceId, r: RoomId)
    requires Proper(config, run) && Unfailed(config, run) && i in After(config, run).workers
    ensures var t := After(config, run);
            r in t.workers[i].rooms <==>
              r in t.rooms && (t.rooms[r].mode == Upgrading || t.rooms[r].mode == Sfu) && t.rooms[r].instance == Some(i)
  {
    hide After, AcksOf, CommandsOk, RoomsOk;
    TameRun(config, run, false);
    var t := After(config, run);
    assert SlotAt(t, r, AcksOf(config, run), false);
    assert i in Hosts(t.workers, r) <==> r in t.workers[i].rooms;
  }

  /** The clients a worker is charged with are the members of those rooms, less those still joining. */
  lemma AssignedClients(config: Config, run: Run, i: InstanceId)
    requires Proper(config, run) && Unfailed(config, run) && Patient(config, run) && i in After(config, run).workers
    ensures var t := After(config, run);
            t.workers[i].clients == Sum(t.rooms, V2Ledger.ShareOn(i))
  {
    hide After;
    BooksKept(config, run, i);
  }

  // ---- requests of the authority ----

  /** How many times a run leaves a request with ticket `x` pending. */
  ghost function OpenedIn(config: Config, run: Run, x: Ticket): nat {
    if run == [] then 0
    else OpenedIn(config, run[..|run| - 1], x) + Opened(After(config, run[..|run| - 1]), run[|run| - 1], x)
  }

  /** How many completions of ticket `x` a run hands to the caller. */
  ghost function PoppedIn(config: Config, run: Run, x: Ticket): nat {
    if run == [] then 0
    else PoppedIn(config, run[..|run| - 1], x) + Popped(After(config, run[..|run| - 1]), run[|run| - 1], x)
  }

  /** Conservation: every request left pending has been completed, is held by one room, or has its
      completion in the action queue. */
  lemma {:induction false} TicketsConserved(config: Config, run: Run, x: Ticket)
    requires Proper(config, run) && Unfailed(config, run) && Patient(config, run)
    ensures OpenedIn(config, run, x) == PoppedIn(config, run, x) + Outstanding(After(config, run), x)
  {
    hide Core, Apply, ProperOrders, ReachesFailRoom, LeavesJoiner, Proper, Unfailed, Patient, Outstanding, Opened, Popped;
    if run == [] {
      assert Outstanding(After(config, run), x) == 0 by { NothingOutstanding(config.grace, config.dwell, x); }
    } else {
      var before := run[..|run| - 1];
      LastStep(config, run);
      TicketsConserved(config, before, x);
      TameRun(config, before, true);
      StepTickets(After(config, before), run[|run| - 1], x, AcksOf(config, before));
    }
  }

  lemma NothingOutstanding(grace: nat, dwell: nat, x: Ticket)
    ensures Outstanding(EmptyTable(grace, dwell), x) == 0
  {
  }

  /** A request with its own ticket is never answered twice, and once pending it is answered or held. */
  lemma AnsweredOnce(config: Config, run: Run, x: Ticket)
    requires Proper(config, run) && Unfailed(config, run) && Patient(config, run)
    requires OpenedIn(config, run, x) == 1
    ensures PoppedIn(config, run, x) <= 1
    ensures PoppedIn(config, run, x) == 1 <==> Outstanding(After(config, run), x) == 0
  {
    hide Outstanding, After, OpenedIn, PoppedIn;
    TicketsConserved(config, run, x);
  }

  /** A result from a connected worker never ends in an error: the error returns that would lose a
      ticket already taken out of a room cannot be reached. */
  lemma ResultsSucceed(config: Config, run: Run, connection: ConnectionId, i: InstanceId, result: CommandResult,
                       now: Instant)
    requires Proper(config, run) && Unfailed(config, run) && Patient(config, run)
    requires i in After(config, run).workers && After(config, run).workers[i].connection == Some(connection)
    ensures HandleResult(After(config, run), connection, i, result, now).1.Ok?
  {
    hide After, AcksOf, HandleResult, Core;
    TameRun(config, run, true);
    ResultSucceeds(After(config, run), connection, i, result, now, AcksOf(config, run));
  }

  lemma ResultSucceeds(t: Table, connection: ConnectionId, i: InstanceId, result: CommandResult, now: Instant, acks: Acks)
    requires Core(t, acks, true) && i in t.workers && t.workers[i].connection == Some(connection)
    ensures HandleResult(t, connection, i, result, now).1.Ok?
  {
    hide CommandsOk, RoomOk, SlotOk, ViewOf, UpgradeJoinResult, SfuJoinResult, SfuLeaveResult, Forget;
    if result.id in t.pending {
      var q := result.id;
      var more := if t.pending[q].UpgradeJoin? || t.pending[q].SfuJoin? then acks + {(i, t.pending[q].join)} else acks;
      match t.pending[q] {
        case UpgradeJoin(_, join) =>
          assert SlotAt(t, join.room, acks, true);
          MoreAcks(join.room, ViewOf(t, join.room), acks, more, true);
          UpgradeJoinSlots(t, q, i, result, join.room, more, true);
        case SfuJoin(_, join) =>
          assert SlotAt(t, join.room, acks, true);
          MoreAcks(join.room, ViewOf(t, join.room), acks, more, true);
          SfuJoinSlots(t, q, i, result, join.room, more);
        case SfuLeave(_, r, _, _, _) =>
          assert SlotAt(t, r, acks, true);
          SfuLeaveSlots(t, q, i, result, now, r, acks, true);
        case _ =>
      }
    }
  }
}
