/** Concrete runs from the empty table into each of the states that `V2Limits` and `V2Strays` are about. One worker
    relays one room. */
module V2Examples {
  import opened Wrappers
  import opened Collections
  import opened Sfu
  import opened V2State
  import opened V2Steps
  import opened V2Moves
  import opened V2RoomSteps
  import opened V2Slots
  import opened V2Commands
  import opened V2Reconnect
  import opened V2SlotTimers
  import opened V2RoomViews
  import opened V2Sessions
  import V2Timers
  import RoomToken
  import opened V2Runs
  import opened V2Histories
  import opened V2Limits
  import opened V2Failures
  import opened V2Strays
  import V2Ledger
  import V2Presence
  import V2Departures

  /** Version 8, under the variant of RFC 9562. */
  const ROOM: RoomId := Uuid([0, 0, 0, 0, 0, 0, 128, 0, 128, 0, 0, 0, 0, 0, 0, 0])
  const WORKER: InstanceId := "w"
  const CAPACITY := Capacity(10, 100)

  /** So it is a room that requests can name. */
  lemma RoomHasToken()
    ensures RoomToken.ParseRoomToken(RoomToken.FormatRoomToken(ROOM)) == Some(ROOM)
  {
    RoomToken.ParseFormat(ROOM);
  }

  ghost function Setting(): Config {
    Config(10, 5)
  }

  ghost predicate Tame(run: Run) {
    Proper(Setting(), run) && Unfailed(Setting(), run) && Patient(Setting(), run)
  }

  ghost function State(run: Run): Table {
    After(Setting(), run)
  }

  /** The step may come next in a tame run. */
  ghost predicate Fits(t: Table, step: Step) {
    ProperOrders(t, step) && !ReachesFailRoom(t, step) && !LeavesJoiner(t, step)
  }

  lemma Next(run: Run, step: Step)
    requires Tame(run) && Fits(State(run), step)
    ensures Tame(run + [step]) && State(run + [step]) == Apply(State(run), step)
  {
    hide Apply, ProperOrders, ReachesFailRoom, LeavesJoiner;
    var more := run + [step];
    assert more[..|run|] == run && more[|run|] == step;
    forall k | 0 <= k < |more|
      ensures ProperOrders(At(Setting(), more, k), more[k]) && !ReachesFailRoom(At(Setting(), more, k), more[k])
              && !LeavesJoiner(At(Setting(), more, k), more[k])
    {
      assert more[..k] == run[..k];
      if k < |run| { assert more[k] == run[k]; }
    }
  }

  /** Everything about the table that the examples depend on. */
  ghost predicate Snap(t: Table, room: Option<Room>, worker: Worker, known: set<ClientId>,
                       pending: map<RequestId, PendingCommand>, next: RequestId)
  {
    && t.rooms == (if room.Some? then map[ROOM := room.value] else map[])
    && t.workers == map[WORKER := worker]
    && (forall c :: (ROOM, c) in t.lifecycles ==> c in known)
    && t.pending == pending && t.nextRequest == next && t.grace == 10 && t.dwell == 5
  }

  function Charged(rooms: set<RoomId>, clients: nat): Worker {
    Worker(Some(1), CAPACITY, Some(Health(Ready, CAPACITY, 0, 0)), rooms, clients, {1}, [1], None)
  }

  function Admitted(token: string, isInitiator: bool, lifecycle: nat): Member {
    Member(token, isInitiator, lifecycle, false, Some(10), [])
  }

  function Direct(members: map<ClientId, Member>): Room {
    Room(members, P2p, 0, 0, None, None, None, None, None)
  }

  // ---- a worker comes, and a room ----

  ghost predicate Untouched(t: Table) {
    t.rooms == map[] && t.lifecycles == map[] && t.pending == map[] && t.nextRequest == 1 && t.grace == 10 && t.dwell == 5
  }

  const NEW_WORKER := Worker(Some(1), CAPACITY, None, {}, 0, {}, [], None)

  lemma Comes(t: Table)
    requires Untouched(t) && t.workers == map[] && t.owners == map[]
    ensures var step := WorkerStep(1, WORKER, 1, CAPACITY, [], []);
            Fits(t, step) && Untouched(Apply(t, step)) && Apply(t, step).workers == map[WORKER := NEW_WORKER]
  {
    assert OpenSession(t, 1, WORKER, 1, CAPACITY).workers == map[WORKER := NEW_WORKER];
  }

  lemma Remembered()
    ensures Remember(NEW_WORKER, 1) == NEW_WORKER.(seen := {1}, seenOrder := [1])
  {
    assert {} + {1} == {1} && [] + [1] == [1];
  }

  lemma Well(t: Table)
    requires Untouched(t) && t.workers == map[WORKER := NEW_WORKER]
    ensures var step := EventStep(1, WORKER, Event(1, HealthEvent(Health(Ready, CAPACITY, 0, 0))));
            Fits(t, step) && Snap(Apply(t, step), None, Charged({}, 0), {}, map[], 1)
  {
    hide Remember;
    Remembered();
  }

  lemma WorkerReady() returns (run: Run)
    ensures Tame(run) && Snap(State(run), None, Charged({}, 0), {}, map[], 1)
  {
    hide Apply, Fits;
    run := [];
    Comes(State(run));
    Next(run, WorkerStep(1, WORKER, 1, CAPACITY, [], []));
    run := run + [WorkerStep(1, WORKER, 1, CAPACITY, [], [])];
    var well := EventStep(1, WORKER, Event(1, HealthEvent(Health(Ready, CAPACITY, 0, 0))));
    Well(State(run));
    Next(run, well);
    run := run + [well];
  }

  lemma AdmitFits(t: Table, ticket: Ticket, now: Instant, c: ClientId, token: string)
    ensures var step := AdmitStep(ticket, now, ROOM, c, token);
            Fits(t, step) && Apply(t, step) == Admit(t, ticket, now, ROOM, c, token).0
  {
    hide Admit;
  }

  lemma First(t: Table)
    requires Snap(t, None, Charged({}, 0), {}, map[], 1)
    ensures HasOne(Admit(t, 1, 0, ROOM, 1, "a").0)
  {
    assert NextLifecycle(t, ROOM, 1) == 1;
    assert CreateRoom(t, 0, ROOM, 1, "a").0.rooms == map[ROOM := Direct(map[1 := Admitted("a", true, 1)])];
  }

  ghost function Pair(): map<ClientId, Member> {
    map[1 := Admitted("a", true, 1), 2 := Admitted("b", false, 1)]
  }

  lemma Second(t: Table)
    requires HasOne(t)
    ensures HasPair(Admit(t, 2, 0, ROOM, 2, "b").0)
  {
    assert NextLifecycle(t, ROOM, 2) == 1;
    Size1(t.rooms[ROOM].members, 1);
    assert AdmitToP2p(t, 0, ROOM, 2, "b").0.rooms[ROOM] == Direct(Pair());
    assert AdmitToP2p(t, 0, ROOM, 2, "b").0.rooms == map[ROOM := Direct(Pair())];
  }

  lemma Size1(members: map<ClientId, Member>, a: ClientId)
    requires members.Keys == {a}
    ensures |members| == 1
  {
    assert |members| == |members.Keys|;
  }

  lemma Size2(members: map<ClientId, Member>, a: ClientId, b: ClientId)
    requires members.Keys == {a, b} && a != b
    ensures |members| == 2
  {
    assert |members| == |members.Keys|;
  }

  // ---- the upgrade ----

  /** The three members under their new lifecycle ids. */
  ghost function Three(lead: bool): map<ClientId, Member> {
    map[1 := Admitted("a", lead, 2), 2 := Admitted("b", false, 2), 3 := Admitted("c", false, 1)]
  }

  ghost function Barrier(n: nat): Room
    requires n <= 2
  {
    Room(Three(true), Upgrading, 0, 1, Some(WORKER), Some(Upgrade(3, 3, [1, 2, 3], [1, 2, 3][..n], n)), None, None, None)
  }

  ghost function JoinAt(n: nat): JoinMember
    requires n <= 2
  {
    JoinMember(ROOM, n + 1, if n == 2 then 1 else 2, 1)
  }

  lemma Sorted12()
    ensures SortedSeq({1, 2}) == [1, 2]
  {
    assert Least({1, 2}) == 1;
    assert {1, 2} - {1} == {2};
    assert Least({2}) == 2;
    assert {2} - {2} == {};
  }

  lemma OnlyWorker(t: Table, worker: Worker)
    requires t.workers == map[WORKER := worker] && Selectable(worker, 3)
    ensures SelectWorker(t, 3) == Some(WORKER)
  {
    assert IsLeastLoaded(t, 3, WORKER);
  }

  lemma ThirdRoom(t: Table)
    requires HasPair(t)
    ensures UpgradingRoom(t, 3, 0, ROOM, 3, "c", WORKER) == Barrier(0)
  {
    assert t.rooms[ROOM] == Direct(Pair()) && Pair().Keys == {1, 2};
    var drawn := Draws(t, ROOM, {1, 2});
    assert drawn == map[1 := 2, 2 := 2];
    var c := NewMember(0, t.grace, "c", false, NextLifecycle(t, ROOM, 3));
    assert c == Admitted("c", false, 1);
    hide Draws;
    BarrierIs(map[1 := 2, 2 := 2]);
  }

  lemma BarrierIs(drawn: map<ClientId, nat>)
    requires drawn == map[1 := 2, 2 := 2]
    ensures BarrierRoom(Direct(Pair()), 3, 3, Admitted("c", false, 1), WORKER, drawn) == Barrier(0)
  {
    assert Relabelled(Pair(), drawn)[3 := Admitted("c", false, 1)] == Three(true);
    assert Pair().Keys == {1, 2};
    Sorted12();
    assert [1, 2] + [3] == [1, 2, 3];
  }

  lemma Begun(t: Table)
    requires HasPair(t)
    ensures Snap(BeginUpgrade(t, 3, 0, ROOM, 3, "c", WORKER), Some(Barrier(0)), Charged({ROOM}, 3), {1, 2, 3}, map[], 1)
  {
    ThirdRoom(t);
    assert t.rooms[ROOM].members.Keys + {3} == {1, 2, 3};
    assert {} + {ROOM} == {ROOM};
    hide UpgradingRoom, NextLifecycle, Barrier, Pair;
    var begun := BeginUpgrade(t, 3, 0, ROOM, 3, "c", WORKER);
    assert begun.rooms == map[ROOM := Barrier(0)];
    assert begun.workers == map[WORKER := Charged({ROOM}, 3)];
  }

  lemma JoinIssued(t: Table, n: nat)
    requires n <= 2 && Snap(t, Some(Barrier(n)), Charged({ROOM}, 3), {1, 2, 3}, map[], n + 1)
    ensures IssueNextUpgradeJoin(t, ROOM).Ok?
    ensures Snap(IssueNextUpgradeJoin(t, ROOM).value, Some(Barrier(n)), Charged({ROOM}, 3), {1, 2, 3},
                 map[n + 1 := UpgradeJoin(WORKER, JoinAt(n))], n + 2)
  {
  }

  lemma Chosen(t: Table)
    requires HasPair(t)
    ensures ROOM in t.rooms && WORKER in t.workers
    ensures Admit(t, 3, 0, ROOM, 3, "c").0 == StartUpgrade(t, 3, 0, ROOM, 3, "c", WORKER).0
  {
    hide SelectWorker, StartUpgrade;
    Size2(t.rooms[ROOM].members, 1, 2);
    OnlyWorker(t, Charged({}, 0));
  }

  lemma Third(t: Table)
    requires HasPair(t)
    ensures AtBarrier(Admit(t, 3, 0, ROOM, 3, "c").0, 0)
  {
    hide Admit, BeginUpgrade, IssueNextUpgradeJoin, AtBarrier, Snap;
    Chosen(t);
    Begun(t);
    JoinedBarrier(BeginUpgrade(t, 3, 0, ROOM, 3, "c", WORKER), 0);
  }

  lemma ResultFits(t: Table, q: RequestId, ok: Result<CommandOk, WorkerError>, now: Instant)
    requires Hears(t, q)
    ensures var step := ResultStep(1, WORKER, CommandResult(q, ok), now);
            Fits(t, step) && Apply(t, step) == HandleResult(t, 1, WORKER, CommandResult(q, ok), now).0
  {
    hide HandleResult;
  }

  /** The worker is connected and has command `q` to answer. */
  ghost predicate Hears(t: Table, q: RequestId) {
    && t.workers.Keys == {WORKER} && t.workers[WORKER].connection == Some(1)
    && q in t.pending && !t.pending[q].SyncPending?
  }

  lemma AckHandled(t: Table, n: nat)
    requires n <= 2 && AtBarrier(t, n)
    ensures HandleResult(t, 1, WORKER, CommandResult(n + 1, Ok(MemberJoined(JoinAt(n)))), 0).0
            == UpgradeAck(Forget(t, {n + 1}), UpgradeJoin(WORKER, JoinAt(n))).0
    ensures Snap(Forget(t, {n + 1}), Some(Barrier(n)), Charged({ROOM}, 3), {1, 2, 3}, map[], n + 2)
  {
    hide UpgradeAck, Barrier;
  }

  lemma BarrierMoves(t: Table, n: nat)
    requires n < 2 && AtBarrier(t, n)
    ensures AtBarrier(HandleResult(t, 1, WORKER, CommandResult(n + 1, Ok(MemberJoined(JoinAt(n)))), 0).0, n + 1)
  {
    hide HandleResult, Forget, IssueNextUpgradeJoin, AtBarrier;
    AckHandled(t, n);
    var t1 := Forget(t, {n + 1});
    assert [1, 2, 3][..n] + [n + 1] == [1, 2, 3][..n + 1];
    assert AdvancedRoom(Barrier(n), n + 1) == Barrier(n + 1);
    var t2 := PutRoom(t1, ROOM, Barrier(n + 1));
    assert t2.rooms == map[ROOM := Barrier(n + 1)];
    JoinIssued(t2, n + 1);
    assert AtBarrier(IssueNextUpgradeJoin(t2, ROOM).value, n + 1) by { JoinedBarrier(t2, n + 1); }
  }

  lemma JoinedBarrier(t: Table, n: nat)
    requires n <= 2 && Snap(t, Some(Barrier(n)), Charged({ROOM}, 3), {1, 2, 3}, map[], n + 1)
    ensures IssueNextUpgradeJoin(t, ROOM).Ok? && AtBarrier(IssueNextUpgradeJoin(t, ROOM).value, n)
  {
    hide IssueNextUpgradeJoin, Barrier;
    JoinIssued(t, n);
  }

  ghost function Relayed(members: map<ClientId, Member>, dwell: Option<Instant>): Room {
    Room(members, Sfu, 1, 1, Some(WORKER), None, None, None, dwell)
  }

  lemma CommittedIs()
    ensures CommittedRoom(AdvancedRoom(Barrier(2), 3)) == Relayed(Three(false), None)
    ensures AdvancedRoom(Barrier(2), 3).members[3].token == "c"
  {
    assert CommittedRoom(AdvancedRoom(Barrier(2), 3)).members == Three(false);
  }

  lemma Commits(t: Table)
    requires AtBarrier(t, 2)
    ensures IsRelayed(HandleResult(t, 1, WORKER, CommandResult(3, Ok(MemberJoined(JoinAt(2)))), 0).0)
  {
    AckHandled(t, 2);
    CommittedIs();
    var t1 := Forget(t, {3});
    var room := AdvancedRoom(Barrier(2), 3);
    hide HandleResult, Forget, AdvancedRoom, CommittedRoom, AtBarrier, Three;
    assert t1.rooms[ROOM := room][ROOM := Relayed(Three(false), None)] == map[ROOM := Relayed(Three(false), None)];
  }

  lemma Onwards(run: Run, step: Step) returns (more: Run)
    requires Tame(run) && Fits(State(run), step)
    ensures Tame(more) && State(more) == Apply(State(run), step) && more == run + [step]
  {
    Next(run, step);
    more := run + [step];
  }

  ghost predicate HasOne(t: Table) {
    Snap(t, Some(Direct(map[1 := Admitted("a", true, 1)])), Charged({}, 0), {1}, map[], 1) && NextLifecycle(t, ROOM, 1) == 2
  }

  ghost predicate HasPair(t: Table) {
    Snap(t, Some(Direct(Pair())), Charged({}, 0), {1, 2}, map[], 1)
    && NextLifecycle(t, ROOM, 1) == 2 && NextLifecycle(t, ROOM, 2) == 2
  }

  ghost predicate AtBarrier(t: Table, n: nat)
    requires n <= 2
  {
    Snap(t, Some(Barrier(n)), Charged({ROOM}, 3), {1, 2, 3}, map[n + 1 := UpgradeJoin(WORKER, JoinAt(n))], n + 2)
  }

  ghost predicate IsRelayed(t: Table) {
    Snap(t, Some(Relayed(Three(false), None)), Charged({ROOM}, 3), {1, 2, 3}, map[], 4)
  }

  lemma PairedRoom() returns (run: Run)
    ensures Tame(run) && HasPair(State(run))
  {
    hide Apply, Fits, Admit, Tame, State, Snap;
    run := WorkerReady();
    AdmitFits(State(run), 1, 0, 1, "a");
    First(State(run));
    run := Onwards(run, AdmitStep(1, 0, ROOM, 1, "a"));
    AdmitFits(State(run), 2, 0, 2, "b");
    Second(State(run));
    run := Onwards(run, AdmitStep(2, 0, ROOM, 2, "b"));
  }

  lemma BarrierHears(t: Table, n: nat)
    requires n <= 2 && AtBarrier(t, n)
    ensures Hears(t, n + 1)
  {
  }

  ghost function Joins(n: nat): Step
    requires n <= 2
  {
    ResultStep(1, WORKER, CommandResult(n + 1, Ok(MemberJoined(JoinAt(n)))), 0)
  }

  lemma LastJoinAwaited() returns (run: Run)
    ensures Tame(run) && AtBarrier(State(run), 2)
  {
    hide Apply, Fits, Admit, HandleResult, Tame, State, HasPair, AtBarrier, Hears, JoinAt;
    run := PairedRoom();
    AdmitFits(State(run), 3, 0, 3, "c");
    Third(State(run));
    run := Onwards(run, AdmitStep(3, 0, ROOM, 3, "c"));
    BarrierHears(State(run), 0);
    ResultFits(State(run), 1, Ok(MemberJoined(JoinAt(0))), 0);
    BarrierMoves(State(run), 0);
    run := Onwards(run, Joins(0));
    BarrierHears(State(run), 1);
    ResultFits(State(run), 2, Ok(MemberJoined(JoinAt(1))), 0);
    BarrierMoves(State(run), 1);
    run := Onwards(run, Joins(1));
  }

  /** A room relayed by the worker, with three members that have not connected yet. */
  lemma RelayedRoom() returns (run: Run)
    ensures Tame(run) && IsRelayed(State(run))
  {
    hide Apply, Fits, HandleResult, Tame, State, AtBarrier, IsRelayed, Hears, JoinAt;
    run := LastJoinAwaited();
    BarrierHears(State(run), 2);
    ResultFits(State(run), 3, Ok(MemberJoined(JoinAt(2))), 0);
    Commits(State(run));
    run := Onwards(run, Joins(2));
  }

  // ---- what can happen in it ----

  /** Relayed by the worker. */
  ghost predicate Ours(room: Room) {
    room.mode == Sfu && room.instance == Some(WORKER) && room.assignmentEpoch == 1 && room.upgrade.None?
  }

  /** A Leave goes out, under the next request id. */
  lemma LeaveSent(t: Table, room: Room, worker: Worker, known: set<ClientId>,
                  pending: map<RequestId, PendingCommand>, q: RequestId, c: ClientId, ticket: Option<Ticket>,
                  reason: LeaveReason)
    requires Snap(t, Some(room), worker, known, pending, q) && Ours(room) && worker.connection == Some(1)
    requires room.pendingLeave.None? && c in room.members
    ensures var left := IssueSfuLeave(t, ROOM, c, ticket, reason);
            && left.Some?
            && Snap(left.value, Some(room.(pendingLeave := Some(PendingLeave(ticket, c)))), worker, known,
                    pending[q := SfuLeave(WORKER, ROOM, c, room.members[c].lifecycle, 1)], q + 1)
  {
  }

  lemma LeaveHandled(t: Table, q: RequestId, ok: Result<CommandOk, WorkerError>)
    requires t.workers.Keys == {WORKER} && t.workers[WORKER].connection == Some(1)
    requires q in t.pending && t.pending[q].SfuLeave?
    ensures HandleResult(t, 1, WORKER, CommandResult(q, ok), 0).0
            == SfuLeaveResult(Forget(t, {q}), WORKER, t.pending[q], CommandResult(q, ok), 0).0
  {
    hide SfuLeaveResult;
  }

  ghost predicate SameIds(t: Table, t': Table) {
    t'.lifecycles == t.lifecycles && t'.nextRequest == t.nextRequest && t'.grace == t.grace && t'.dwell == t.dwell
  }

  lemma ReapIds(t: Table, r: RoomId, room: Room)
    ensures SameIds(t, PutOrReap(t, r, room))
  {
  }

  /** The ids and settings of the table stay what they were. */
  lemma LeaveKeeps(t: Table, p: PendingCommand, result: CommandResult)
    requires p.SfuLeave?
    ensures SameIds(t, SfuLeaveResult(t, WORKER, p, result, 0).0)
  {
    hide Armed, Left, DebitWorker, WithoutMember, PutOrReap, RemovalNotice, ErrorReason;
    if p.room in t.rooms && t.rooms[p.room].pendingLeave.Some? {
      var leave, rest := t.rooms[p.room].pendingLeave.value, WithoutMember(t.rooms[p.room].(pendingLeave := None), p.client);
      var debited := DebitWorker(t, WORKER, p.room, rest.members == map[]);
      DebitKeeps(t, WORKER, p.room, rest.members == map[]);
      ReapIds(PushAll(debited, RemovalNotice(leave, p.room, p.client, Ok(()))), p.room, Armed(t.dwell, rest, 0));
    }
  }

  ghost function LeaveNote(room: Room, c: ClientId): PendingCommand
    requires c in room.members
  {
    SfuLeave(WORKER, ROOM, c, room.members[c].lifecycle, 1)
  }

  lemma LeaveFails(t: Table, room: Room, worker: Worker, known: set<ClientId>,
                   pending: map<RequestId, PendingCommand>, n: RequestId, q: RequestId, c: ClientId)
    requires Snap(t, Some(room), worker, known, pending, n) && Ours(room) && worker.connection == Some(1)
    requires room.pendingLeave.Some? && c in room.members && q in pending && pending[q] == LeaveNote(room, c)
    ensures Snap(HandleResult(t, 1, WORKER, CommandResult(q, Err(WorkerError("BUSY", true))), 0).0,
                 Some(room.(pendingLeave := None)), worker, known, pending - {q}, n)
  {
    hide SfuLeaveResult, HandleResult;
    var result := CommandResult(q, Err(WorkerError("BUSY", true)));
    var t1 := Forget(t, {q});
    LeaveHandled(t, q, result.result);
    LeaveKeeps(t1, pending[q], result);
    LeaveResultRooms(t1, WORKER, pending[q], result, 0);
    assert t1.rooms[ROOM := room.(pendingLeave := None)] == map[ROOM := room.(pendingLeave := None)];
  }

  lemma LeaveWorks(t: Table, room: Room, clients: nat, known: set<ClientId>,
                   pending: map<RequestId, PendingCommand>, n: RequestId, q: RequestId, c: ClientId, reason: LeaveReason)
    requires Snap(t, Some(room), Charged({ROOM}, clients), known, pending, n) && Ours(room) && clients > 0
    requires room.pendingLeave.Some? && c in room.members && q in pending && pending[q] == LeaveNote(room, c)
    requires room.members - {c} != map[]
    ensures var left := LeaveMember(ROOM, c, room.members[c].lifecycle, 1, reason);
            Snap(HandleResult(t, 1, WORKER, CommandResult(q, Ok(MemberLeft(left))), 0).0,
                 Some(Armed(5, WithoutMember(room.(pendingLeave := None), c), 0)), Charged({ROOM}, clients - 1), known,
                 pending - {q}, n)
  {
    hide SfuLeaveResult, HandleResult, Armed, Left;
    var result := CommandResult(q, Ok(MemberLeft(LeaveMember(ROOM, c, room.members[c].lifecycle, 1, reason))));
    var t1 := Forget(t, {q});
    LeftIs(room, c, q, reason);
    LeaveHandled(t, q, result.result);
    LeaveKeeps(t1, pending[q], result);
    LeaveResultRooms(t1, WORKER, pending[q], result, 0);
    var rest := Armed(5, WithoutMember(room.(pendingLeave := None), c), 0);
    assert t1.rooms[ROOM := rest] == map[ROOM := rest];
    assert DebitWorker(t1, WORKER, ROOM, false).workers == map[WORKER := Charged({ROOM}, clients - 1)];
    hide DebitWorker, Ours;
  }

  lemma LeftIs(room: Room, c: ClientId, q: RequestId, reason: LeaveReason)
    requires c in room.members
    ensures Left(CommandResult(q, Ok(MemberLeft(LeaveMember(ROOM, c, room.members[c].lifecycle, 1, reason)))),
                 LeaveNote(room, c))
  {
  }

  lemma NewcomerJoins(t: Table, room: Room, worker: Worker, known: set<ClientId>, q: RequestId,
                      ticket: Ticket, c: ClientId, token: string)
    requires Snap(t, Some(room), worker, known, map[], q) && Ours(room) && worker.connection == Some(1)
    requires room.pendingJoin.None? && room.pendingLeave.None? && c !in room.members && c !in known
    ensures Snap(Admit(t, ticket, 0, ROOM, c, token).0,
                 Some(WithMember(room, c, Admitted(token, false, 1))
                      .(pendingJoin := Some(PendingJoin(ticket, c)), downgradeDeadline := None)),
                 worker, known + {c}, map[q := SfuJoin(WORKER, JoinMember(ROOM, c, 1, 1))], q + 1)
  {
    hide SelectWorker;
    assert NextLifecycle(t, ROOM, c) == 1;
  }

  lemma NewcomerTurnedAway(t: Table, room: Room, worker: Worker, known: set<ClientId>, n: RequestId,
                           q: RequestId, c: ClientId)
    requires Snap(t, Some(room), worker, known, map[q := SfuJoin(WORKER, JoinMember(ROOM, c, 1, 1))], n)
    requires Ours(room) && worker.connection == Some(1) && room.pendingJoin.Some? && room.pendingJoin.value.client == c
    ensures Snap(HandleResult(t, 1, WORKER, CommandResult(q, Err(WorkerError("CAPACITY", false))), 0).0,
                 Some(WithoutMember(room.(pendingJoin := None), c)), worker, known, map[], n)
  {
    var t1 := Forget(t, {q});
    assert t1.pending == map[];
    JoinResultRooms(t1, WORKER, t.pending[q], CommandResult(q, Err(WorkerError("CAPACITY", false))));
  }

  lemma RemovalStarts(t: Table, room: Room, ticket: Ticket, c: ClientId, token: string)
    requires t.rooms == map[ROOM := room] && Ours(room) && room.pendingJoin.None? && room.pendingLeave.None?
    requires c in room.members && room.members[c].token == token && IssueSfuLeave(t, ROOM, c, Some(ticket), User).Some?
    ensures var step := RemoveStep(ticket, ROOM, c, token);
            Fits(t, step) && Apply(t, step) == IssueSfuLeave(t, ROOM, c, Some(ticket), User).value
  {
    hide IssueSfuLeave;
  }

  /** A member is removed on request. */
  lemma Removal(run: Run, room: Room, clients: nat, known: set<ClientId>, q: RequestId, ticket: Ticket,
                c: ClientId) returns (more: Run)
    requires Tame(run) && Snap(State(run), Some(room), Charged({ROOM}, clients), known, map[], q) && clients > 0
    requires Ours(room) && room.pendingJoin.None? && room.pendingLeave.None? && c in room.members
    requires room.members - {c} != map[]
    ensures Tame(more)
    ensures Snap(State(more), Some(Armed(5, WithoutMember(room, c), 0)), Charged({ROOM}, clients - 1), known, map[], q + 1)
  {
    hide Apply, Fits, HandleResult, Armed, IssueSfuLeave;
    var told := room.(pendingLeave := Some(PendingLeave(Some(ticket), c)));
    var left := Ok(MemberLeft(LeaveMember(ROOM, c, room.members[c].lifecycle, 1, User)));
    LeaveSent(State(run), room, Charged({ROOM}, clients), known, map[], q, c, Some(ticket), User);
    RemovalStarts(State(run), room, ticket, c, room.members[c].token);
    more := Onwards(run, RemoveStep(ticket, ROOM, c, room.members[c].token));
    var pending := map[q := LeaveNote(room, c)];
    assert map[][q := LeaveNote(room, c)] == pending;
    ResultFits(State(more), q, left, 0);
    LeaveWorks(State(more), told, clients, known, pending, q + 1, q, c, User);
    more := Onwards(more, ResultStep(1, WORKER, CommandResult(q, left), 0));
    assert pending - {q} == map[];
    assert told.(pendingLeave := None) == room;
  }

  // ---- a room that stays relayed ----

  ghost function Two(): map<ClientId, Member> {
    map[1 := Admitted("a", false, 2), 2 := Admitted("b", false, 2)]
  }

  lemma TwoLeft()
    ensures Armed(5, WithoutMember(Relayed(Three(false), None), 3), 0) == Relayed(Two(), Some(5))
    ensures Three(false) - {3} != map[]
  {
    assert Three(false) - {3} == Two();
    Size2(Two(), 1, 2);
    assert 1 in Two();
  }

  /** Two members, and the dwell until 5. */
  lemma SmallRoom() returns (run: Run)
    ensures Tame(run) && Snap(State(run), Some(Relayed(Two(), Some(5))), Charged({ROOM}, 2), {1, 2, 3}, map[], 5)
  {
    run := RelayedRoom();
    TwoLeft();
    run := Removal(run, Relayed(Three(false), None), 3, {1, 2, 3}, 4, 4, 3);
    hide Apply, Fits, Armed, Two, Three;
  }

  lemma NewcomerGone(room: Room, c: ClientId, token: string, ticket: Ticket)
    requires c !in room.members && room.pendingJoin.None?
    ensures var joining := WithMember(room, c, Admitted(token, false, 1))
                           .(pendingJoin := Some(PendingJoin(ticket, c)), downgradeDeadline := None);
            WithoutMember(joining.(pendingJoin := None), c) == room.(downgradeDeadline := None)
  {
    assert room.members[c := Admitted(token, false, 1)] - {c} == room.members;
  }

  /** A client asks to join, and the worker turns it away. */
  lemma Rejection(run: Run, room: Room, worker: Worker, known: set<ClientId>, q: RequestId, ticket: Ticket,
                  c: ClientId, token: string) returns (more: Run)
    requires Tame(run) && Snap(State(run), Some(room), worker, known, map[], q) && Ours(room)
    requires worker.connection == Some(1)
    requires room.pendingJoin.None? && room.pendingLeave.None? && c !in room.members && c !in known
    ensures Tame(more)
    ensures Snap(State(more), Some(room.(downgradeDeadline := None)), worker, known + {c}, map[], q + 1)
  {
    hide Apply, Fits, Admit, HandleResult;
    var joining := WithMember(room, c, Admitted(token, false, 1))
                   .(pendingJoin := Some(PendingJoin(ticket, c)), downgradeDeadline := None);
    AdmitFits(State(run), ticket, 0, c, token);
    NewcomerJoins(State(run), room, worker, known, q, ticket, c, token);
    more := Onwards(run, AdmitStep(ticket, 0, ROOM, c, token));
    ResultFits(State(more), q, Err(WorkerError("CAPACITY", false)), 0);
    NewcomerTurnedAway(State(more), joining, worker, known + {c}, q + 1, q, c);
    NewcomerGone(room, c, token, ticket);
    more := Onwards(more, ResultStep(1, WORKER, CommandResult(q, Err(WorkerError("CAPACITY", false))), 0));
  }

  /** A third client asks to join while the dwell runs, and the worker turns it away. Two members are left without a
      dwell, and they stay relayed. */
  lemma LapsedRun() returns (run: Run)
    ensures Tame(run) && ROOM in State(run).rooms && |State(run).rooms[ROOM].members| == 2
    ensures LapsedAt(RoomAt(State(run), ROOM))
  {
    hide Tame, State;
    run := SmallRoom();
    assert 4 !in Two();
    run := Rejection(run, Relayed(Two(), Some(5)), Charged({ROOM}, 2), {1, 2, 3}, 5, 5, 4, "d");
    Size2(Two(), 1, 2);
    assert 1 in Two();
  }

  // ---- a cleanup Leave that is never sent again ----

  ghost function Sweep(order: seq<ClientId>): Schedule {
    Schedule([], map[], [ROOM], map[ROOM := order])
  }

  lemma SweepFits(t: Table, room: Room, worker: Worker, now: Instant, order: seq<ClientId>)
    requires t.rooms == map[ROOM := room] && t.workers == map[WORKER := worker] && worker.deadline.None?
    requires room.pendingJoin.None? && Lists(order, room.members.Keys)
    ensures var step := TimeoutStep(now, Sweep(order));
            Fits(t, step) && Apply(t, step) == SweepRoom(t, now, ROOM, order).0
  {
    assert DueWorkers(t, now) == {};
    hide SweepRoom;
    var s := Sweep(order);
    assert s.rooms[1..] == [] && Listing(s.members, ROOM) == order;
    assert SweepRooms(t, now, s.rooms, s.members).0 == SweepRoom(t, now, ROOM, order).0;
    assert HandleTimeout(t, now, s).0 == SweepRoom(t, now, ROOM, order).0;
    hide SweepRooms;
  }

  lemma SmallCleanup(t: Table)
    requires ROOM in t.rooms && 1 in t.rooms[ROOM].members && 2 in t.rooms[ROOM].members
    requires t.nextRequest == 5 && t.pending == map[]
    ensures var t' := CleanupLeaves(t, ROOM, WORKER, 1, [1, 2], 1).0;
            && t'.pending == map[5 := CleanupPending, 6 := CleanupPending] && t'.workers == t.workers
            && 5 in t'.owners && t'.owners[5] == WORKER
  {
    var first := LeaveMember(ROOM, 1, t.rooms[ROOM].members[1].lifecycle, 1, RoomClosed);
    var second := LeaveMember(ROOM, 2, t.rooms[ROOM].members[2].lifecycle, 1, RoomClosed);
    var t1 := IssueCommand(t, WORKER, 1, LeaveCommand(first), CleanupPending);
    var t2 := IssueCommand(t1, WORKER, 1, LeaveCommand(second), CleanupPending);
    assert [1, 2][1..] == [2] && [2][1..] == [];
    assert CleanupLeaves(t1, ROOM, WORKER, 1, [2], 1).0 == t2;
    assert CleanupLeaves(t, ROOM, WORKER, 1, [1, 2], 1).0 == t2;
  }

  /** The worker, charged with nothing, has two cleanup Leaves to answer. */
  ghost predicate Cleaning(t: Table, worker: Worker) {
    && t.workers == map[WORKER := worker] && t.pending == map[5 := CleanupPending, 6 := CleanupPending]
    && 5 in t.owners && t.owners[5] == WORKER
  }

  lemma SmallDowngrade(t: Table)
    requires Snap(t, Some(Relayed(Two(), Some(5))), Charged({ROOM}, 2), {1, 2, 3}, map[], 5)
    ensures Cleaning(SweepRoom(t, 5, ROOM, [1, 2]).0, Charged({}, 0))
  {
    var room := t.rooms[ROOM];
    Size2(Two(), 1, 2);
    assert 1 in Two() && 2 in Two();
    assert DowngradeEligible(room);
    var t1 := PutRoom(t, ROOM, DowngradedRoom(room));
    assert 1 in t1.rooms[ROOM].members && 2 in t1.rooms[ROOM].members;
    var t2 := Unassign(t1, ROOM, WORKER, 2);
    assert {ROOM} - {ROOM} == {};
    assert t2.workers == map[WORKER := Charged({}, 0)];
    SmallCleanup(t2);
    hide CleanupLeaves, DowngradedRoom;
    assert CommitDowngrade(t, ROOM, [1, 2]).pending == CleanupLeaves(t2, ROOM, WORKER, 1, [1, 2], 1).0.pending;
  }

  lemma Loses(t: Table)
    requires Cleaning(t, Charged({}, 0))
    ensures var step := LostStep(1, WORKER, 5);
            && Fits(t, step) && Apply(t, step).unacked == t.unacked
            && Cleaning(Apply(t, step), Charged({}, 0).(connection := None, health := None, deadline := Some(5 + t.grace)))
  {
  }

  lemma Reopened(t: Table, deadline: Instant)
    requires Cleaning(t, Charged({}, 0).(connection := None, health := None, deadline := Some(deadline)))
    ensures var session := OpenSession(t, 2, WORKER, 1, CAPACITY);
            && Cleaning(session, Charged({}, 0).(connection := Some(2), health := None))
            && session.owners == t.owners && session.unacked == t.unacked
  {
    assert Superseded(t, WORKER) == {};
    assert t.unacked - {} == t.unacked;
  }

  lemma Returns(t: Table, deadline: Instant)
    requires Cleaning(t, Charged({}, 0).(connection := None, health := None, deadline := Some(deadline)))
    requires t.owners.Keys == {5, 6}
    ensures var step := WorkerStep(2, WORKER, 1, CAPACITY, [], [5, 6]);
            && Fits(t, step) && Apply(t, step).unacked == t.unacked
            && Cleaning(Apply(t, step), Charged({}, 0).(connection := Some(2), health := None))
  {
    Reopened(t, deadline);
    assert Lists([5, 6], {5, 6});
    hide OpenSession;
  }

  /** The dwell is over, and the room direct again. */
  lemma DirectAgain() returns (run: Run)
    ensures Tame(run) && Cleaning(State(run), Charged({}, 0))
  {
    hide Apply, Fits, SweepRoom, Cleaning, Tame, State;
    run := SmallRoom();
    assert Lists([1, 2], Two().Keys);
    SweepFits(State(run), Relayed(Two(), Some(5)), Charged({ROOM}, 2), 5, [1, 2]);
    SmallDowngrade(State(run));
    run := Onwards(run, TimeoutStep(5, Sweep([1, 2])));
  }

  /** Command 5 is a Leave that worker `WORKER` has not answered. */
  ghost predicate Unanswered(t: Table) {
    5 in t.unacked && t.unacked[5].kind.LeaveCommand? && 5 in t.owners && t.owners[5] == WORKER
  }

  /** The worker loses its connection before it has answered the Leaves of the downgrade, and registers again. The first
      of them is unanswered still, but no synchronisation will send it again: the worker has no rooms any more. */
  lemma CleanupRun() returns (run: Run, n: nat)
    ensures Tame(run) && |run| == n + 2
    ensures Unanswered(State(run[..n])) && Connection(State(run[..n]), WORKER) == Some(1)
    ensures run[n] == LostStep(1, WORKER, 5)
    ensures run[n + 1].WorkerStep? && run[n + 1].instance == WORKER && run[n + 1].connection == 2
    ensures Unanswered(State(run)) && Connection(State(run), WORKER) == Some(2)
    ensures State(run).unacked[5] == State(run[..n]).unacked[5]
    ensures !AwaitsReplay(State(run), WORKER, State(run).unacked[5])
  {
    hide Apply, Fits, Tame, State;
    run := DirectAgain();
    n := |run|;
    Ledger(run);
    Loses(State(run));
    var deadline := 5 + State(run).grace;
    var lost, back := LostStep(1, WORKER, 5), WorkerStep(2, WORKER, 1, CAPACITY, [], [5, 6]);
    var gone := Onwards(run, lost);
    Ledger(gone);
    Returns(State(gone), deadline);
    var more := Onwards(gone, back);
    Ledger(more);
    NoPlansLeft(State(more));
    assert more[..n] == run && more[n] == lost && more[n + 1] == back;
    run := more;
  }

  lemma NoPlansLeft(t: Table)
    requires t.pending == map[5 := CleanupPending, 6 := CleanupPending] && 5 in t.unacked
    ensures !AwaitsReplay(t, WORKER, t.unacked[5])
  {
  }

  lemma Ledger(run: Run)
    requires Tame(run) && State(run).pending.Keys == {5, 6}
    ensures var t := State(run);
            && t.owners.Keys == {5, 6} && t.unacked.Keys == {5, 6}
            && (t.pending[5].CleanupPending? ==> t.unacked[5].kind.LeaveCommand?)
  {
    hide After;
    CommandMapsAgree(Setting(), run);
  }

  // ---- a command that is sent again after its answer ----

  ghost function LastJoin(): Command {
    Command(3, JoinCommand(JoinAt(2)))
  }

  lemma LastJoinNoted(run: Run)
    requires Tame(run) && AtBarrier(State(run), 2)
    ensures State(run).owners == map[3 := WORKER] && State(run).unacked == map[3 := LastJoin()]
  {
    hide After, Base, CommandsOk;
    Reachable(Setting(), run);
    BaseShapes(State(run));
    LastJoinOwned(State(run));
  }

  lemma LastJoinOwned(t: Table)
    requires CommandsOk(t) && t.pending == map[3 := UpgradeJoin(WORKER, JoinAt(2))]
    ensures t.owners == map[3 := WORKER] && t.unacked == map[3 := LastJoin()]
  {
    assert t.pending.Keys == {3};
    assert Matches(t.pending[3], t.unacked[3].kind) && OwnedBy(t.pending[3], t.owners[3]) && t.unacked[3].id == 3;
  }

  /** The worker is back on connection 2, with the last Join in flight and in the replay of its room. */
  ghost predicate Planned(t: Table) {
    && t.rooms == map[ROOM := Barrier(2)] && t.workers.Keys == {WORKER} && t.workers[WORKER].connection == Some(2)
    && t.pending == map[3 := UpgradeJoin(WORKER, JoinAt(2)), 4 := SyncPending(WORKER, ROOM, 1, [LastJoin()])]
  }

  lemma LastJoinReplayed(t: Table)
    requires t.owners == map[3 := WORKER] && t.unacked == map[3 := LastJoin()] && 3 in t.pending && t.pending[3].UpgradeJoin?
    ensures Replay(t, WORKER, ROOM, [3]) == [LastJoin()]
  {
    assert [3][1..] == [];
    assert Replay(t, WORKER, ROOM, [3][1..]) == [];
  }

  lemma BarrierReopened(t: Table)
    requires AtBarrier(t, 2)
    ensures var session := OpenSession(t, 2, WORKER, 1, CAPACITY);
            && session.pending == t.pending && session.owners == t.owners && session.unacked == t.unacked
            && session.workers.Keys == {WORKER} && session.workers[WORKER].rooms == {ROOM}
            && session.workers[WORKER].connection == Some(2)
            && session.rooms == t.rooms && session.nextRequest == t.nextRequest
  {
    assert Superseded(t, WORKER) == {};
  }

  lemma ReturnFits(t: Table)
    requires t.owners == map[3 := WORKER] && OpenSession(t, 2, WORKER, 1, CAPACITY).owners == t.owners
    requires var session := OpenSession(t, 2, WORKER, 1, CAPACITY);
             WORKER in session.workers && session.workers[WORKER].rooms == {ROOM}
    ensures var step := WorkerStep(2, WORKER, 1, CAPACITY, [ROOM], [3]);
            Fits(t, step) && Apply(t, step) == ResyncRooms(OpenSession(t, 2, WORKER, 1, CAPACITY), WORKER, 2, [ROOM], [3])
  {
    assert Lists([ROOM], {ROOM}) && Lists([3], {3});
    hide OpenSession, ResyncRooms, Lists;
  }

  lemma BarrierResynced(t: Table)
    requires AtBarrier(t, 2) && t.owners == map[3 := WORKER] && t.unacked == map[3 := LastJoin()]
    ensures var step := WorkerStep(2, WORKER, 1, CAPACITY, [ROOM], [3]);
            Fits(t, step) && Planned(Apply(t, step))
  {
    var session := OpenSession(t, 2, WORKER, 1, CAPACITY);
    BarrierReopened(t);
    assert t.rooms[ROOM] == Barrier(2) && Barrier(2).assignmentEpoch == 1;
    ReturnFits(t);
    LastJoinReplayed(session);
    hide OpenSession, Barrier, Projection, Lists, Replay, Fits, Apply;
    assert [ROOM][1..] == [];
    assert ResyncRooms(ResyncRoom(session, WORKER, 2, ROOM, [3]), WORKER, 2, [], [3])
        == ResyncRoom(session, WORKER, 2, ROOM, [3]);
  }

  /** The worker answers the Join, and the upgrade commits. */
  lemma PlannedAnswer(t: Table)
    requires Planned(t)
    ensures var step := ResultStep(2, WORKER, CommandResult(3, Ok(MemberJoined(JoinAt(2)))), 0);
            && Fits(t, step) && Apply(t, step).workers == t.workers
            && Apply(t, step).pending == map[4 := SyncPending(WORKER, ROOM, 1, [LastJoin()])]
            && Apply(t, step).unacked == t.unacked - {3}
  {
    var t1 := Forget(t, {3});
    assert t1.pending == map[4 := SyncPending(WORKER, ROOM, 1, [LastJoin()])];
    PlannedCommits(t);
    AnswerFits(t, 3, Ok(MemberJoined(JoinAt(2))));
    CommitKeepsCommands(PutRoom(t1, ROOM, AdvancedRoom(Barrier(2), 3)));
    hide CommitUpgrade, AdvancedRoom, Barrier, HandleResult, Fits, Apply;
  }

  /** From connection 2, the worker answers a command that is no SyncRoom. */
  lemma AnswerFits(t: Table, q: RequestId, ok: Result<CommandOk, WorkerError>)
    requires q in t.pending && !t.pending[q].SyncPending?
    ensures var step := ResultStep(2, WORKER, CommandResult(q, ok), 0);
            Fits(t, step) && Apply(t, step) == HandleResult(t, 2, WORKER, CommandResult(q, ok), 0).0
  {
    hide HandleResult;
  }

  lemma PlannedCommits(t: Table)
    requires Planned(t)
    ensures HandleResult(t, 2, WORKER, CommandResult(3, Ok(MemberJoined(JoinAt(2)))), 0).0
            == CommitUpgrade(PutRoom(Forget(t, {3}), ROOM, AdvancedRoom(Barrier(2), 3)), ROOM).0
  {
    hide CommitUpgrade, AbortUpgrade, IssueNextUpgradeJoin, AdvancedRoom, Three;
  }

  lemma CommitKeepsCommands(t: Table)
    ensures var t' := CommitUpgrade(t, ROOM).0;
            t'.pending == t.pending && t'.unacked == t.unacked && t'.workers == t.workers
  {
    hide CommitUpgrade;
    CommitQuiet(t, ROOM);
    V2Ledger.CommitWorkers(t, ROOM);
  }

  lemma SyncFits(t: Table)
    requires t.workers.Keys == {WORKER} && t.workers[WORKER].connection == Some(2)
    requires t.pending == map[4 := SyncPending(WORKER, ROOM, 1, [LastJoin()])]
    ensures var step := ResultStep(2, WORKER, CommandResult(4, Ok(RoomSynced(ROOM, 1))), 0);
            Fits(t, step) && Apply(t, step).actions == t.actions + [SfuOut(CommandOut(2, LastJoin()))]
  {
    hide HandleResult, LastJoin;
    var result := CommandResult(4, Ok(RoomSynced(ROOM, 1)));
    SyncReplays(t, 2, WORKER, result, 0);
    assert Sent(2, [LastJoin()]) == [SfuOut(CommandOut(2, LastJoin()))];
  }

  /** The worker registers again while it has a Join to answer, answers it, and then reports its room as synchronised.
      The Join is sent again, though it has been acknowledged. */
  lemma AnsweredRun() returns (run: Run, synced: Step)
    ensures Tame(run) && Fits(State(run), synced) && synced.ResultStep?
    ensures 3 !in State(run).unacked
    ensures exists command: Command :: command.id == 3 &&
              Apply(State(run), synced).actions == State(run).actions + [SfuOut(CommandOut(2, command))]
  {
    hide Apply, Fits, Tame, State, AtBarrier, Planned, JoinAt;
    run := LastJoinAwaited();
    LastJoinNoted(run);
    BarrierResynced(State(run));
    run := Onwards(run, WorkerStep(2, WORKER, 1, CAPACITY, [ROOM], [3]));
    PlannedAnswer(State(run));
    PlannedWorker(State(run));
    run := Onwards(run, ResultStep(2, WORKER, CommandResult(3, Ok(MemberJoined(JoinAt(2)))), 0));
    synced := ResultStep(2, WORKER, CommandResult(4, Ok(RoomSynced(ROOM, 1))), 0);
    SyncFits(State(run));
    assert LastJoin().id == 3;
  }

  lemma PlannedWorker(t: Table)
    requires Planned(t)
    ensures t.workers.Keys == {WORKER} && t.workers[WORKER].connection == Some(2)
  {
  }

  // ---- a member that nobody waits for ----

  lemma RegisterFits(t: Table, room: Room, c: ClientId, order: seq<ClientId>)
    requires t.rooms == map[ROOM := room] && room.mode == Sfu && c in room.members && !room.members[c].registered
    requires Lists(order, room.members.Keys)
    ensures var step := RegisterStep(ROOM, c, room.members[c].token, order);
            && Fits(t, step)
            && Apply(t, step) == PutRoom(t, ROOM, room.(members := RegisteredMembers(room.members, c, false)))
  {
    hide RegisteredMembers;
  }

  /** The room once the member has connected and disconnected again. */
  ghost function Away(room: Room, c: ClientId): Room
    requires c in room.members
  {
    WithMember(room, c, room.members[c].(registered := false, deadline := None))
  }

  lemma AwayIs(room: Room, c: ClientId)
    requires c in room.members
    ensures var there := room.(members := RegisteredMembers(room.members, c, false));
            && c in there.members && there.members[c].registered && there.members.Keys == room.members.Keys
            && WithMember(there, c, there.members[c].(registered := false)) == Away(room, c)
            && Away(room, c).members[c].lifecycle == room.members[c].lifecycle
  {
  }

  lemma DeregisterFits(t: Table, room: Room, c: ClientId)
    requires t.rooms == map[ROOM := room] && Ours(room) && c in room.members && room.members[c].registered
    requires !Awaits(room, c)
    requires var t1 := PutRoom(t, ROOM, WithMember(room, c, room.members[c].(registered := false)));
             IssueSfuLeave(t1, ROOM, c, None, Disconnected).Some?
    ensures var step := DeregisterStep(0, ROOM, c);
            var t1 := PutRoom(t, ROOM, WithMember(room, c, room.members[c].(registered := false)));
            Fits(t, step) && Apply(t, step) == IssueSfuLeave(t1, ROOM, c, None, Disconnected).value
  {
    hide IssueSfuLeave;
  }

  lemma Disconnects(t: Table, room: Room, worker: Worker, known: set<ClientId>,
                    pending: map<RequestId, PendingCommand>, q: RequestId, c: ClientId)
    requires Ours(room) && room.pendingLeave.None? && c in room.members && !Awaits(room, c)
    requires Snap(t, Some(room.(members := RegisteredMembers(room.members, c, false))), worker, known, pending, q)
    requires worker.connection == Some(1)
    ensures var step := DeregisterStep(0, ROOM, c);
            && Fits(t, step)
            && Snap(Apply(t, step), Some(Away(room, c).(pendingLeave := Some(PendingLeave(None, c)))), worker, known,
                    pending[q := LeaveNote(room, c)], q + 1)
  {
    hide RegisteredMembers, Away, WithMember, IssueSfuLeave, Apply, Fits;
    var there := room.(members := RegisteredMembers(room.members, c, false));
    AwayIs(room, c);
    var t1 := PutRoom(t, ROOM, Away(room, c));
    assert t1.rooms == map[ROOM := Away(room, c)];
    AwayOurs(room, c);
    LeaveSent(t1, Away(room, c), worker, known, pending, q, c, None, Disconnected);
    DeregisterFits(t, there, c);
  }

  lemma AwayOurs(room: Room, c: ClientId)
    requires Ours(room) && c in room.members && room.pendingLeave.None?
    ensures Ours(Away(room, c)) && Away(room, c).pendingLeave.None? && c in Away(room, c).members
  {
  }

  lemma Connects(t: Table, room: Room, worker: Worker, known: set<ClientId>, pending: map<RequestId, PendingCommand>,
                 q: RequestId, c: ClientId, order: seq<ClientId>)
    requires Snap(t, Some(room), worker, known, pending, q)
    requires room.mode == Sfu && c in room.members && !room.members[c].registered && Lists(order, room.members.Keys)
    ensures var step := RegisterStep(ROOM, c, room.members[c].token, order);
            && Fits(t, step)
            && Snap(Apply(t, step), Some(room.(members := RegisteredMembers(room.members, c, false))), worker, known,
                    pending, q)
  {
    hide Apply, Fits, RegisteredMembers, Lists;
    RegisterFits(t, room, c, order);
    var there := room.(members := RegisteredMembers(room.members, c, false));
    assert t.rooms[ROOM := there] == map[ROOM := there];
  }

  /** A member connects and disconnects, and its Leave goes out. */
  lemma Visit(run: Run, room: Room, worker: Worker, known: set<ClientId>,
              pending: map<RequestId, PendingCommand>, q: RequestId, c: ClientId, order: seq<ClientId>) returns (more: Run)
    requires Tame(run) && Snap(State(run), Some(room), worker, known, pending, q) && Ours(room)
    requires worker.connection == Some(1)
    requires room.pendingLeave.None? && c in room.members && !room.members[c].registered && !Awaits(room, c)
    requires Lists(order, room.members.Keys)
    ensures Tame(more)
    ensures Snap(State(more), Some(Away(room, c).(pendingLeave := Some(PendingLeave(None, c)))), worker, known,
                 pending[q := LeaveNote(room, c)], q + 1)
  {
    hide Apply, Fits, RegisteredMembers, Lists, Away, Tame, State, LeaveNote, Snap;
    Connects(State(run), room, worker, known, pending, q, c, order);
    more := Onwards(run, RegisterStep(ROOM, c, room.members[c].token, order));
    Disconnects(State(more), room, worker, known, pending, q, c);
    more := Onwards(more, DeregisterStep(0, ROOM, c));
  }

  lemma AwayStuck(room: Room, c: ClientId)
    requires Ours(room) && c in room.members && room.pendingLeave.None? && !Awaits(room, c)
    ensures Stuck(Some(Away(room, c)), c)
  {
  }

  lemma Listed123()
    ensures Lists([1, 2, 3], Three(false).Keys)
  {
  }

  /** A member of a relayed room disconnects, and the worker fails its Leave. It is offline, and nothing will remove it. */
  lemma StrandedRun() returns (run: Run)
    ensures Tame(run) && Stuck(RoomAt(State(run), ROOM), 1)
  {
    var room := Relayed(Three(false), None);
    run := RelayedRoom();
    Listed123();
    run := Visit(run, room, Charged({ROOM}, 3), {1, 2, 3}, map[], 4, 1, [1, 2, 3]);
    var left := Away(room, 1).(pendingLeave := Some(PendingLeave(None, 1)));
    hide Apply, Fits, HandleResult, Tame, State, Lists, Charged;
    AwayOurs(room, 1);
    AwayStuck(room, 1);
    hide Stuck;
    ResultFits(State(run), 4, Err(WorkerError("BUSY", true)), 0);
    LeaveFails(State(run), left, Charged({ROOM}, 3), {1, 2, 3}, map[4 := LeaveNote(room, 1)], 5, 4, 1);
    run := Onwards(run, ResultStep(1, WORKER, CommandResult(4, Err(WorkerError("BUSY", true))), 0));
  }

  // ---- a member that leaves while it is connected ----

  /** Member 1 is connected again, while the Leave that its disconnect has sent is in flight. */
  ghost function Back(): Room {
    var away := Away(Relayed(Three(false), None), 1).(pendingLeave := Some(PendingLeave(None, 1)));
    away.(members := RegisteredMembers(away.members, 1, false))
  }

  lemma BackIs()
    ensures Ours(Back()) && Back().pendingLeave == Some(PendingLeave(None, 1)) && 1 in Back().members
    ensures Back().members[1].registered && Back().members - {1} != map[] && Back().members[1].lifecycle == 2
    ensures LeaveNote(Back(), 1) == LeaveNote(Relayed(Three(false), None), 1)
    ensures var away := Away(Relayed(Three(false), None), 1).(pendingLeave := Some(PendingLeave(None, 1)));
            && away.mode == Sfu && 1 in away.members && !away.members[1].registered && away.members[1].token == "a"
            && away.members.Keys == Three(false).Keys
  {
    assert 2 in Back().members - {1};
  }

  /** The worker reports that member 1 has left. */
  ghost function Leaves1(): Step {
    ResultStep(1, WORKER, CommandResult(4, Ok(MemberLeft(LeaveMember(ROOM, 1, 2, 1, Disconnected)))), 0)
  }

  lemma BackLeaves(t: Table)
    requires Snap(t, Some(Back()), Charged({ROOM}, 3), {1, 2, 3}, map[4 := LeaveNote(Back(), 1)], 5)
    ensures V2Presence.Online(RoomAt(t, ROOM), 1) && V2Departures.Departs(t, Leaves1(), ROOM, 1)
    ensures !V2Presence.Present(RoomAt(Apply(t, Leaves1()), ROOM), 1)
  {
    hide Back, Armed, HandleResult, V2Departures.Departs, Fits, Apply;
    BackIs();
    BackHears(t);
    ResultFits(t, 4, Leaves1().result.result, 0);
    BackDeparts(t);
    LeaveWorks(t, Back(), 3, {1, 2, 3}, map[4 := LeaveNote(Back(), 1)], 5, 4, 1, Disconnected);
    ArmedMembers(5, WithoutMember(Back().(pendingLeave := None), 1), 0);
  }

  lemma BackDeparts(t: Table)
    requires Hears(t, 4) && ROOM in t.rooms && t.rooms[ROOM] == Back() && t.pending[4] == LeaveNote(Back(), 1)
    ensures V2Departures.Departs(t, Leaves1(), ROOM, 1)
  {
    hide Back, Left;
    BackIs();
    LeftIs(Back(), 1, 4, Disconnected);
  }

  lemma BackSays(t: Table)
    requires Snap(t, Some(Back()), Charged({ROOM}, 3), {1, 2, 3}, map[4 := LeaveNote(Back(), 1)], 5)
    ensures Apply(t, Leaves1()).actions == t.actions
  {
    hide Back, Armed, DebitWorker, PutOrReap, Left, Fits, Apply, HandleResult;
    BackIs();
    BackHears(t);
    ResultFits(t, 4, Leaves1().result.result, 0);
    LeaveHandled(t, 4, Leaves1().result.result);
    var t1 := Forget(t, {4});
    var rest := WithoutMember(Back().(pendingLeave := None), 1);
    DebitKeeps(t1, WORKER, ROOM, rest.members == map[]);
    V2Presence.ReapSays(PushAll(DebitWorker(t1, WORKER, ROOM, rest.members == map[]), []), ROOM, Armed(t.dwell, rest, 0));
  }

  /** A member of a relayed room disconnects, is back before the worker has answered its Leave, and is gone when the
      worker does. Nothing is announced that would close its new socket. */
  lemma SlippedRun() returns (run: Run, step: Step)
    ensures Tame(run) && Fits(State(run), step) && step.ResultStep?
    ensures V2Presence.Online(RoomAt(State(run), ROOM), 1) && V2Departures.Departs(State(run), step, ROOM, 1)
    ensures !V2Presence.Present(RoomAt(Apply(State(run), step), ROOM), 1)
    ensures Apply(State(run), step).actions == State(run).actions
  {
    var room := Relayed(Three(false), None);
    var away := Away(room, 1).(pendingLeave := Some(PendingLeave(None, 1)));
    run := RelayedRoom();
    Listed123();
    BackIs();
    run := Visit(run, room, Charged({ROOM}, 3), {1, 2, 3}, map[], 4, 1, [1, 2, 3]);
    var pending := map[4 := LeaveNote(room, 1)];
    assert map[][4 := LeaveNote(room, 1)] == pending;
    hide Apply, Fits, HandleResult, Tame, State, Lists, Charged, RegisteredMembers, Away, Three, Snap, LeaveNote;
    Connects(State(run), away, Charged({ROOM}, 3), {1, 2, 3}, pending, 5, 1, [1, 2, 3]);
    run := Onwards(run, RegisterStep(ROOM, 1, "a", [1, 2, 3]));
    step := Leaves1();
    BackLeaves(State(run));
    BackSays(State(run));
    BackHears(State(run));
    ResultFits(State(run), 4, step.result.result, 0);
  }

  lemma BackHears(t: Table)
    requires Snap(t, Some(Back()), Charged({ROOM}, 3), {1, 2, 3}, map[4 := LeaveNote(Back(), 1)], 5)
    ensures Hears(t, 4)
  {
    hide Back;
  }

  // ---- a room without members ----

  ghost function One(): map<ClientId, Member> {
    map[1 := Admitted("a", false, 2)]
  }

  lemma OneLeft()
    ensures Armed(5, WithoutMember(Relayed(Two(), Some(5)), 2), 0) == Relayed(One(), Some(5))
    ensures Two() - {2} != map[]
  {
    assert Two() - {2} == One();
    Size1(One(), 1);
    assert 1 in One();
  }

  lemma LastMember() returns (run: Run)
    ensures Tame(run) && Snap(State(run), Some(Relayed(One(), Some(5))), Charged({ROOM}, 1), {1, 2, 3}, map[], 6)
  {
    run := SmallRoom();
    OneLeft();
    assert 2 in Two();
    var room := Relayed(Two(), Some(5));
    assert Ours(room) && room.pendingJoin.None? && room.pendingLeave.None?;
    assert 2 in room.members && room.members - {2} != map[];
    hide Two, One, Armed;
    var known := {1, 2, 3};
    run := Removal(run, room, 2, known, 5, 5, 2);
  }

  /** Client 4 is joining member 1. */
  ghost function Joining(): Room {
    Relayed(One()[4 := Admitted("d", false, 1)], None).(pendingJoin := Some(PendingJoin(6, 4)))
  }

  lemma JoiningIs()
    ensures WithMember(Relayed(One(), Some(5)), 4, Admitted("d", false, 1))
            .(pendingJoin := Some(PendingJoin(6, 4)), downgradeDeadline := None) == Joining()
  {
  }

  lemma LonelyRoom() returns (run: Run)
    ensures Tame(run)
    ensures Snap(State(run), Some(Joining()), Charged({ROOM}, 1), {1, 2, 3, 4},
                 map[6 := SfuJoin(WORKER, JoinMember(ROOM, 4, 1, 1))], 7)
  {
    run := LastMember();
    assert 4 !in One();
    JoiningIs();
    hide Apply, Fits, Admit, Tame, State, One, WithMember, Joining;
    AdmitFits(State(run), 6, 0, 4, "d");
    NewcomerJoins(State(run), Relayed(One(), Some(5)), Charged({ROOM}, 1), {1, 2, 3}, 6, 6, 4, "d");
    run := Onwards(run, AdmitStep(6, 0, ROOM, 4, "d"));
  }

  /** The room once member 1 has left. */
  lemma LastLeft()
    ensures var left := Away(Joining(), 1).(pendingLeave := Some(PendingLeave(None, 1)));
            var rest := WithoutMember(left.(pendingLeave := None), 1);
            && left.members - {1} != map[] && Ours(left) && LeaveNote(left, 1) == LeaveNote(Joining(), 1)
            && Armed(5, rest, 0) == rest && Ours(rest) && rest.pendingJoin == Some(PendingJoin(6, 4))
            && rest.mode == Sfu && rest.members.Keys == {4}
  {
    var left := Away(Joining(), 1);
    assert 4 in left.members - {1};
    assert left.members.Keys == {1, 4};
    assert (left.members - {1}).Keys == {4};
  }

  /** Client 4 is alone, and still joining. */
  ghost predicate JoinerAlone(t: Table, room: Room) {
    && room.members.Keys == {4} && Ours(room) && room.pendingJoin == Some(PendingJoin(6, 4))
    && Snap(t, Some(room), Charged({ROOM}, 0), {1, 2, 3, 4}, map[6 := SfuJoin(WORKER, JoinMember(ROOM, 4, 1, 1))], 8)
  }

  lemma LastLeaves(t: Table, join: PendingCommand)
    requires var left := Away(Joining(), 1).(pendingLeave := Some(PendingLeave(None, 1)));
             Snap(t, Some(left), Charged({ROOM}, 1), {1, 2, 3, 4}, map[6 := join][7 := LeaveNote(Joining(), 1)], 8)
    requires join == SfuJoin(WORKER, JoinMember(ROOM, 4, 1, 1))
    ensures var left := Away(Joining(), 1).(pendingLeave := Some(PendingLeave(None, 1)));
            var rest := WithoutMember(left.(pendingLeave := None), 1);
            var ok := MemberLeft(LeaveMember(ROOM, 1, left.members[1].lifecycle, 1, Disconnected));
            Hears(t, 7) && JoinerAlone(HandleResult(t, 1, WORKER, CommandResult(7, Ok(ok)), 0).0, rest)
  {
    LastLeft();
    var left := Away(Joining(), 1).(pendingLeave := Some(PendingLeave(None, 1)));
    var note := LeaveNote(left, 1);
    var pending := map[6 := join][7 := note];
    assert pending - {7} == map[6 := join];
    assert Hears(t, 7);
    hide HandleResult, Joining, Away, Armed, WithoutMember, Snap, Hears;
    LeaveWorks(t, left, 1, {1, 2, 3, 4}, pending, 8, 7, 1, Disconnected);
  }

  /** The last member has left while client 4 is joining. */
  lemma JoinerLeft() returns (run: Run, room: Room)
    ensures Tame(run) && JoinerAlone(State(run), room)
  {
    run := LonelyRoom();
    var join := SfuJoin(WORKER, JoinMember(ROOM, 4, 1, 1));
    assert Lists([1, 4], Joining().members.Keys);
    assert Ours(Joining()) && Joining().pendingLeave.None? && !Joining().members[1].registered;
    hide Apply, Fits, HandleResult, Tame, State, Lists, Joining, Away, Snap, JoinerAlone, Hears;
    run := Visit(run, Joining(), Charged({ROOM}, 1), {1, 2, 3, 4}, map[6 := join], 7, 1, [1, 4]);
    LastLeaves(State(run), join);
    var left := Away(Joining(), 1).(pendingLeave := Some(PendingLeave(None, 1)));
    var ok := Ok(MemberLeft(LeaveMember(ROOM, 1, left.members[1].lifecycle, 1, Disconnected)));
    ResultFits(State(run), 7, ok, 0);
    run := Onwards(run, ResultStep(1, WORKER, CommandResult(7, ok), 0));
    room := WithoutMember(left.(pendingLeave := None), 1);
  }

  lemma NobodyLeft(t: Table, room: Room)
    requires JoinerAlone(t, room)
    ensures var t' := HandleResult(t, 1, WORKER, CommandResult(6, Err(WorkerError("CAPACITY", false))), 0).0;
            Hears(t, 6) && Deserted(RoomAt(t', ROOM))
  {
    hide HandleResult;
    NewcomerTurnedAway(t, room, Charged({ROOM}, 0), {1, 2, 3, 4}, 8, 6, 4);
    assert (room.members - {4}).Keys == {};
  }

  /** The only member disconnects and leaves while a newcomer is joining, and the worker turns the newcomer away. The
      room has no members, and stays in the table, assigned to the worker. */
  lemma DesertedRun() returns (run: Run)
    ensures Tame(run) && Deserted(RoomAt(State(run), ROOM))
  {
    hide Apply, Fits, HandleResult, Tame, State, Deserted, JoinerAlone, Hears;
    var room;
    run, room := JoinerLeft();
    NobodyLeft(State(run), room);
    ResultFits(State(run), 6, Err(WorkerError("CAPACITY", false)), 0);
    run := Onwards(run, ResultStep(1, WORKER, CommandResult(6, Err(WorkerError("CAPACITY", false))), 0));
  }

  // ---- a signal that reaches nobody ----

  ghost function Stray(): Event {
    Event(2, SignalEvent(Signal(ROOM, 1, 1, 1, "answer", None)))
  }

  lemma StrayFits(t: Table)
    requires Snap(t, None, Charged({}, 0), {}, map[], 1)
    ensures var step := EventStep(1, WORKER, Stray());
            && Fits(t, step) && IsFresh(t, 1, WORKER, Stray()) && !Routable(t, WORKER, Stray().kind.signal)
            && WORKER in Apply(t, step).workers && Apply(t, step).workers[WORKER].connection == Some(1)
  {
    hide HandleEvent, Remember;
    EventWorkers(t, 1, WORKER, Stray());
  }

  /** A worker signals to a room that is not there. The signal is refused, and its repetition acknowledged. */
  lemma LostSignalRun() returns (run: Run)
    ensures Tame(run) && HandleEvent(State(run), 1, WORKER, Stray()).1.Err?
    ensures var more := run + [EventStep(1, WORKER, Stray())];
            && Tame(more) && State(more).actions == State(run).actions
            && HandleEvent(State(more), 1, WORKER, Stray()) == (Push(State(more), SfuOut(EventAck(1, 2))), Ok(()))
  {
    run := WorkerReady();
    StrayFits(State(run));
    RefusedExactly(State(run), 1, WORKER, Stray());
    hide Apply, Fits, HandleEvent, IsFresh, Routable, Heard;
    var more := Onwards(run, EventStep(1, WORKER, Stray()));
    assert more[..|run|] == run && more[..|more|] == more;
    HeardNext(Setting(), more, WORKER, |run|);
    OneHeard(State(run), EventStep(1, WORKER, Stray()));
    RefusedIsLost(Setting(), more, |run|, |more|, 1);
  }

  lemma OneHeard(t: Table, step: Step)
    ensures |Heard(t, step, WORKER)| <= 1
  {
  }

  // ---- a failed room that relays ----

  /** Members 1 and 2 have connected. */
  ghost function Met(): map<ClientId, Member> {
    map[1 := Admitted("a", false, 2).(registered := true, deadline := None),
        2 := Admitted("b", false, 2).(registered := true, deadline := None), 3 := Admitted("c", false, 1)]
  }

  lemma MetIs()
    ensures RegisteredMembers(RegisteredMembers(Three(false), 1, false), 2, false) == Met()
    ensures Lists([1, 2, 3], Three(false).Keys) && RegisteredMembers(Three(false), 1, false).Keys == Three(false).Keys
    ensures !RegisteredMembers(Three(false), 1, false)[2].registered
  {
  }

  /** Members 1 and 2 of the relayed room connect. */
  lemma MetRoom() returns (run: Run)
    ensures Tame(run) && Snap(State(run), Some(Relayed(Met(), None)), Charged({ROOM}, 3), {1, 2, 3}, map[], 4)
  {
    run := RelayedRoom();
    MetIs();
    var room := Relayed(Three(false), None);
    var met := room.(members := RegisteredMembers(room.members, 1, false));
    assert 1 in Three(false) && 2 in Three(false) && !Three(false)[1].registered;
    hide Apply, Fits, Tame, State, Snap, Lists, RegisteredMembers, Met, Three;
    Connects(State(run), room, Charged({ROOM}, 3), {1, 2, 3}, map[], 4, 1, [1, 2, 3]);
    run := Onwards(run, RegisterStep(ROOM, 1, room.members[1].token, [1, 2, 3]));
    Connects(State(run), met, Charged({ROOM}, 3), {1, 2, 3}, map[], 4, 2, [1, 2, 3]);
    run := Onwards(run, RegisterStep(ROOM, 2, met.members[2].token, [1, 2, 3]));
  }

  const GONE_WORKER := Charged({ROOM}, 3).(connection := None, health := None, deadline := Some(10))

  lemma LosesRoom(t: Table)
    requires t.workers == map[WORKER := Charged({ROOM}, 3)] && t.grace == 10
    ensures var step := LostStep(1, WORKER, 0);
            Fits(t, step) && Apply(t, step).rooms == t.rooms && Apply(t, step).workers == map[WORKER := GONE_WORKER]
  {
  }

  lemma Expires(t: Table, step: Step)
    requires t.rooms == map[ROOM := Relayed(Met(), None)] && step.TimeoutStep? && step.now == 10
    requires t.workers == map[WORKER := GONE_WORKER] && ProperOrders(t, step)
    ensures V2Failures.Fails(t, step, ROOM)
  {
    assert WORKER in DueWorkers(t, 10);
    assert WORKER in step.schedule.workers;
  }

  /** Where nobody is joining, no timeout sends a Leave for a joiner. */
  lemma NobodyJoins(t: Table, step: Step, acks: Acks)
    requires Core(t, acks, true) && step.TimeoutStep? && ProperOrders(t, step)
    requires forall r :: r in t.rooms ==> t.rooms[r].pendingJoin.None?
    ensures Fits(t, step)
  {
    hide Core, ExpireWorkers;
    var s := step.schedule;
    var mid := ExpireWorkers(t, s.workers, s.hosted);
    forall r | r in mid.rooms ensures SparesJoiner(mid, step.now, r, Listing(s.members, r)) {
      ExpiredRooms(t, s.workers, s.hosted, r, acks, true);
      assert RoomAt(mid, r) == Some(mid.rooms[r]);
    }
  }

  lemma ExpiresTo(t: Table, step: Step, acks: Acks)
    requires Core(t, acks, true) && step.TimeoutStep? && ProperOrders(t, step)
    requires t.rooms == map[ROOM := Relayed(Met(), None)] && V2Failures.Fails(t, step, ROOM)
    ensures var b := RoomAt(Apply(t, step), ROOM);
            b.Some? && b.value.mode == Failed && b.value.signalEpoch == 1 && b.value.members == Met()
  {
    hide Core, Apply, ProperOrders, SweptTo, Met;
    var found, grace := TimeoutAt(t, step, ROOM, acks, true);
    SweptFails(found.value, RoomAt(Apply(t, step), ROOM), step.now, Listing(step.schedule.members, ROOM), grace);
  }

  /** Which browser gets the frame, and whether any does, is up to the iteration order. */
  lemma FrameRouted(t: Table)
    requires ROOM in t.rooms && t.rooms[ROOM].mode == Failed && t.rooms[ROOM].signalEpoch == 1
    requires t.rooms[ROOM].members == Met()
    ensures Lists([1, 2, 3], t.rooms[ROOM].members.Keys) && Lists([3, 2, 1], t.rooms[ROOM].members.Keys)
    ensures Send(t, ROOM, 1, 1, "offer", [1, 2, 3]).1 == Ok(ToPeer(Some(Delivery(ROOM, 2, "offer"))))
    ensures Send(t, ROOM, 1, 1, "offer", [3, 2, 1]).1 == Ok(ToPeer(None))
  {
    assert [1, 2, 3][1..][0] == 2;
  }

  /** The worker is gone for good, and the room fails under epoch 1, under which it was relayed. A frame that member 1
      stamped then, for the worker, goes to member 2; or, if the iteration meets member 3 first, into a queue. */
  lemma FailedRun() returns (run: Run, relayed: nat)
    ensures Tame(run) && |run| == relayed + 1 && FailedAt(RoomAt(State(run), ROOM))
    ensures var before := State(run[..relayed]);
            ROOM in before.rooms && before.rooms[ROOM].mode == Sfu && before.rooms[ROOM].signalEpoch == 1
    ensures var members := State(run).rooms[ROOM].members;
            Lists([1, 2, 3], members.Keys) && Lists([3, 2, 1], members.Keys)
    ensures Send(State(run), ROOM, 1, 1, "offer", [1, 2, 3]).1 == Ok(ToPeer(Some(Delivery(ROOM, 2, "offer"))))
    ensures Send(State(run), ROOM, 1, 1, "offer", [3, 2, 1]).1 == Ok(ToPeer(None))
  {
    hide Fits, Apply, Send, ProperOrders, V2Failures.Fails, Met, Core, Lists;
    run := MetRoom();
    LosesRoom(State(run));
    run := Onwards(run, LostStep(1, WORKER, 0));
    relayed := |run|;
    var s := V2Timers.ScheduleExists(State(run), 10);
    var step := TimeoutStep(10, s);
    assert ProperOrders(State(run), step) by { TimeoutProper(State(run), 10, s); }
    TameRun(Setting(), run, true);
    var acks := AcksOf(Setting(), run);
    NobodyJoins(State(run), step, acks);
    Expires(State(run), step);
    ExpiresTo(State(run), step, acks);
    assert (run + [step])[..relayed] == run;
    run := Onwards(run, step);
    FrameRouted(State(run));
  }

  lemma TimeoutProper(t: Table, now: Instant, s: Schedule)
    requires TimeoutOrders(t, now, s)
    ensures ProperOrders(t, TimeoutStep(now, s))
  {
    hide TimeoutOrders;
  }
}
