/** The loops of the authority over hash maps, sets and lists, and what they compute. */
module V2Loops {
  import opened Wrappers
  import opened Collections
  import opened Sfu
  import opened V2State
  import opened V2Steps
  import opened V2Rooms
  import opened V2Moves
  import opened V2RoomSteps
  import opened V2Commands
  import opened V2Sessions
  import opened V2Fresh
  import opened V2Runs

  // ---- loops over hash maps and sets ----

  /** The elements of a set in the order one iteration meets them. */
  method Collect<T(==, !new)>(s: set<T>) returns (order: seq<T>)
    ensures Lists(order, s)
  {
    order := [];
    var todo := s;
    while todo != {}
      invariant todo <= s && Lists(order, s - todo)
      decreases |todo|
    {
      var x :| x in todo;
      ListsSnoc(order, s - todo, x);
      assert s - todo + {x} == s - (todo - {x});
      order := order + [x];
      todo := todo - {x};
    }
    assert s - {} == s;
  }

  /** The elements of a set of client ids in ascending order. */
  method Sorted(s: set<ClientId>) returns (sorted: seq<ClientId>)
    ensures sorted == SortedSeq(s)
  {
    sorted := [];
    var todo := s;
    while todo != {}
      invariant sorted + SortedSeq(todo) == SortedSeq(s)
      decreases |todo|
    {
      var least :| least in todo;
      var rest := todo - {least};
      while rest != {}
        invariant rest <= todo && least in todo && least !in rest
        invariant forall x :: x in todo && x !in rest ==> least <= x
        decreases |rest|
      {
        var x :| x in rest;
        rest := rest - {x};
        if x < least { rest, least := rest, x; }
      }
      assert least == Least(todo);
      assert sorted + ([least] + SortedSeq(todo - {least})) == (sorted + [least]) + SortedSeq(todo - {least});
      sorted := sorted + [least];
      todo := todo - {least};
    }
    assert sorted + [] == sorted;
  }

  lemma LessLoadedTotal(i: InstanceId, a: Worker, j: InstanceId, b: Worker)
    requires i != j
    ensures LessLoaded(i, a, j, b) != LessLoaded(j, b, i, a)
  {
    BeforeTotal(i, j);
  }

  lemma LessLoadedTransitive(i: InstanceId, a: Worker, j: InstanceId, b: Worker, k: InstanceId, c: Worker)
    requires LessLoaded(i, a, j, b) && LessLoaded(j, b, k, c)
    ensures LessLoaded(i, a, k, c)
  {
    if Before(i, j) && Before(j, k) { BeforeTransitive(i, j, k); }
  }

  lemma LeastLoadedUnique(t: Table, additional: nat, i: InstanceId, j: InstanceId)
    requires IsLeastLoaded(t, additional, i) && IsLeastLoaded(t, additional, j)
    ensures i == j
  {
    if i != j { LessLoadedTotal(i, t.workers[i], j, t.workers[j]); }
  }

  lemma {:induction false} QueuedForSnoc(members: map<ClientId, Member>, c: ClientId, order: seq<ClientId>, d: ClientId)
    ensures QueuedFor(members, c, order + [d])
            == QueuedFor(members, c, order) + if d in members && d != c then members[d].queue else []
    decreases |order|
  {
    if order == [] {
      assert [] + [d] == [d] && [d][1..] == [];
    } else {
      assert (order + [d])[1..] == order[1..] + [d];
      QueuedForSnoc(members, c, order[1..], d);
    }
  }

  lemma {:induction false} ReplaySnoc(t: Table, i: InstanceId, r: RoomId, commands: seq<RequestId>, q: RequestId)
    ensures Replay(t, i, r, commands + [q])
            == Replay(t, i, r, commands) + if Replayable(t, i, r, q) then [t.unacked[q]] else []
  {
    if commands == [] {
      assert [] + [q] == [q] && [q][1..] == [];
    } else {
      assert (commands + [q])[1..] == commands[1..] + [q];
      ReplaySnoc(t, i, r, commands[1..], q);
    }
  }

  lemma DrawnApart(before: Table, r: RoomId, done: set<ClientId>, d: ClientId)
    requires d !in done
    ensures ((r, d) in FreshLifecycles(before, r, done) <==> (r, d) in before.lifecycles)
    ensures (r, d) in before.lifecycles ==> FreshLifecycles(before, r, done)[(r, d)] == before.lifecycles[(r, d)]
  {
  }

  lemma FreshMore(t: Table, r: RoomId, cs: set<ClientId>, d: ClientId)
    ensures FreshLifecycles(t, r, cs + {d}) == FreshLifecycles(t, r, cs)[(r, d) := NextLifecycle(t, r, d)]
  {
    hide NextLifecycle;
  }

  lemma DrawsMore(t: Table, r: RoomId, cs: set<ClientId>, d: ClientId)
    ensures Draws(t, r, cs + {d}) == Draws(t, r, cs)[d := NextLifecycle(t, r, d)]
  {
    hide NextLifecycle;
  }

  lemma LabelledMore(members: map<ClientId, Member>, lifecycles: map<ClientId, nat>, c: ClientId, member: Member,
                     d: ClientId, value: nat)
    requires d in members && d != c
    ensures var labelled := Relabelled(members, lifecycles)[c := member];
            d in labelled &&
            Relabelled(members, lifecycles[d := value])[c := member]
            == labelled[d := labelled[d].(lifecycle := value)]
  {
  }

  /** Ids drawn and members labelled for an upgrade of room `r` of `before`, for the clients of `done`. */
  ghost predicate Drawn(lifecycles: map<(RoomId, ClientId), nat>, members: map<ClientId, Member>, before: Table, r: RoomId,
                        c: ClientId, member: Member, done: set<ClientId>)
    requires r in before.rooms
  {
    && lifecycles == FreshLifecycles(before, r, {c} + done)
    && members == Relabelled(before.rooms[r].members, Draws(before, r, done))[c := member]
  }

  lemma DrawnFirst(before: Table, r: RoomId, c: ClientId, member: Member)
    requires r in before.rooms
    ensures Drawn(DrawLifecycle(before, r, c).lifecycles, before.rooms[r].members[c := member], before, r, c, member, {})
  {
    assert {c} + {} == {c};
    assert Relabelled(before.rooms[r].members, Draws(before, r, {})) == before.rooms[r].members;
  }

  lemma DrawnMore(lifecycles: map<(RoomId, ClientId), nat>, members: map<ClientId, Member>, before: Table, r: RoomId,
                  c: ClientId, member: Member, done: set<ClientId>, d: ClientId)
    requires r in before.rooms && c !in before.rooms[r].members && d in before.rooms[r].members && d !in done
    requires Drawn(lifecycles, members, before, r, c, member, done)
    ensures d in members
    ensures (if (r, d) in lifecycles then lifecycles[(r, d)] else 0) + 1 == NextLifecycle(before, r, d)
    ensures Drawn(lifecycles[(r, d) := NextLifecycle(before, r, d)],
                  members[d := members[d].(lifecycle := NextLifecycle(before, r, d))], before, r, c, member, done + {d})
  {
    hide FreshLifecycles, Relabelled, Draws;
    DrawnApart(before, r, {c} + done, d);
    FreshMore(before, r, {c} + done, d);
    DrawsMore(before, r, done, d);
    LabelledMore(before.rooms[r].members, Draws(before, r, done), c, member, d, NextLifecycle(before, r, d));
    assert {c} + done + {d} == {c} + (done + {d});
  }

  lemma DrawnRoom(lifecycles: map<(RoomId, ClientId), nat>, members: map<ClientId, Member>, before: Table, now: Instant,
                  r: RoomId, c: ClientId, token: string, ticket: Ticket, i: InstanceId)
    requires r in before.rooms
    requires Drawn(lifecycles, members, before, r, c, NewMember(now, before.grace, token, false, NextLifecycle(before, r, c)),
                   before.rooms[r].members.Keys)
    ensures lifecycles == FreshLifecycles(before, r, before.rooms[r].members.Keys + {c})
    ensures UpgradingRoom(before, ticket, now, r, c, token, i)
            == before.rooms[r].(members := members, mode := Upgrading,
                                assignmentEpoch := before.rooms[r].assignmentEpoch + 1, instance := Some(i),
                                upgrade := Some(Upgrade(ticket, c, SortedSeq(before.rooms[r].members.Keys) + [c], [], 0)))
  {
    hide FreshLifecycles, Relabelled, Draws, SortedSeq, NextLifecycle, NewMember;
    assert {c} + before.rooms[r].members.Keys == before.rooms[r].members.Keys + {c};
  }

  /** When everyone has drawn, the members are those behind the barrier. */
  lemma DrawnAll(lifecycles: map<(RoomId, ClientId), nat>, members: map<ClientId, Member>, before: Table, now: Instant,
                 r: RoomId, c: ClientId, token: string, ticket: Ticket, i: InstanceId)
    requires r in before.rooms && i in before.workers
    requires Drawn(lifecycles, members, before, r, c, NewMember(now, before.grace, token, false, NextLifecycle(before, r, c)),
                   before.rooms[r].members.Keys)
    ensures var room := before.rooms[r].(members := members, mode := Upgrading,
                                         assignmentEpoch := before.rooms[r].assignmentEpoch + 1, instance := Some(i),
                                         upgrade := Some(Upgrade(ticket, c, SortedSeq(before.rooms[r].members.Keys) + [c], [], 0)));
            var worker := before.workers[i];
            BeginUpgrade(before, ticket, now, r, c, token, i)
            == before.(rooms := before.rooms[r := room], lifecycles := lifecycles,
                       workers := before.workers[i := worker.(rooms := worker.rooms + {r}, clients := worker.clients + 3)])
  {
    hide FreshLifecycles, UpgradingRoom, Drawn, SortedSeq;
    DrawnRoom(lifecycles, members, before, now, r, c, token, ticket, i);
  }

  // ---- draining queues ----

  ghost function DrainedOf(members: map<ClientId, Member>, c: ClientId, done: set<ClientId>): map<ClientId, Member> {
    map k | k in members :: if k in done && k != c then members[k].(queue := []) else members[k]
  }

  ghost function Drained(members: map<ClientId, Member>, c: ClientId): map<ClientId, Member> {
    DrainedOf(members, c, members.Keys)
  }

  lemma DrainedMore(members: map<ClientId, Member>, c: ClientId, done: set<ClientId>, d: ClientId)
    requires d in members && d !in done
    ensures var before := DrainedOf(members, c, done);
            && d in before && before[d] == members[d]
            && DrainedOf(members, c, done + {d}) == if d == c then before else before[d := before[d].(queue := [])]
  {
  }

  lemma DrainedNone(members: map<ClientId, Member>, c: ClientId)
    ensures DrainedOf(members, c, {}) == members
  {
  }

  lemma DrainedKeys(members: map<ClientId, Member>, c: ClientId)
    ensures Drained(members, c).Keys == members.Keys
  {
  }

  lemma NothingQueued(members: map<ClientId, Member>, c: ClientId)
    ensures QueuedFor(members, c, []) == []
  {
  }

  lemma RegisteredIs(members: map<ClientId, Member>, c: ClientId, drain: bool, after: map<ClientId, Member>)
    requires c in members
    requires var drained := if drain then Drained(members, c) else members;
             c in drained && after == drained[c := drained[c].(registered := true, deadline := None)]
    ensures after == RegisteredMembers(members, c, drain)
  {
  }

  // ---- every operation keeps what every run keeps ----

  lemma AdmitValid(t: Table, ticket: Ticket, now: Instant, r: RoomId, c: ClientId, token: string)
    requires Base(t)
    ensures Base(Admit(t, ticket, now, r, c, token).0)
  {
    hide Base, Admit;
    StepBase(t, AdmitStep(ticket, now, r, c, token));
  }

  lemma RegisterValid(t: Table, r: RoomId, c: ClientId, token: string, order: seq<ClientId>)
    requires Base(t) && ListsMembers(t, r, order)
    ensures Base(Register(t, r, c, token, order).0)
  {
    hide Base, Register;
    StepBase(t, RegisterStep(r, c, token, order));
  }

  lemma DeregisterValid(t: Table, now: Instant, r: RoomId, c: ClientId)
    requires Base(t)
    ensures Base(Deregister(t, now, r, c))
  {
    hide Base, Deregister;
    StepBase(t, DeregisterStep(now, r, c));
  }

  lemma SendValid(t: Table, r: RoomId, c: ClientId, epoch: nat, message: string, order: seq<ClientId>)
    requires Base(t) && ListsMembers(t, r, order)
    ensures Base(Send(t, r, c, epoch, message, order).0)
  {
    hide Base, Send;
    StepBase(t, SendStep(r, c, epoch, message, order));
  }

  lemma RemoveValid(t: Table, ticket: Ticket, r: RoomId, c: ClientId, token: string)
    requires Base(t)
    ensures Base(Remove(t, ticket, r, c, token).0)
  {
    hide Base, Remove;
    StepBase(t, RemoveStep(ticket, r, c, token));
  }

  lemma PollValid(t: Table)
    requires Base(t)
    ensures Base(PollAction(t))
  {
    hide Base, PollAction;
    StepBase(t, PollStep);
  }

  // ---- commits ----

  ghost function ResetOf(members: map<ClientId, Member>, initiator: Option<ClientId>, done: set<ClientId>)
    : map<ClientId, Member>
  {
    map c | c in members ::
      if c in done then members[c].(queue := [], isInitiator := initiator == Some(c)) else members[c]
  }

  lemma ResetNone(members: map<ClientId, Member>, initiator: Option<ClientId>)
    ensures ResetOf(members, initiator, members.Keys - members.Keys) == members
  {
  }

  lemma ResetMore(members: map<ClientId, Member>, initiator: Option<ClientId>, done: set<ClientId>, c: ClientId)
    requires c in members
    ensures var before := ResetOf(members, initiator, done);
            && c in before
            && ResetOf(members, initiator, done + {c})
               == before[c := before[c].(queue := [], isInitiator := initiator == Some(c))]
  {
  }

  lemma CommittedIs(room: Room, after: Room)
    requires after == room.(members := ResetOf(room.members, None, room.members.Keys), mode := Sfu,
                            signalEpoch := room.signalEpoch + 1, upgrade := None)
    ensures after == CommittedRoom(room)
  {
    assert after.members == CommittedRoom(room).members;
  }

  lemma LeastFirst(clients: set<ClientId>)
    requires clients != {}
    ensures SortedSeq(clients) != [] && SortedSeq(clients)[0] == Least(clients)
  {
  }

  lemma DowngradedIs(room: Room, after: Room)
    requires room.members != map[]
    requires room.members.Keys != {}
    requires after == room.(members := ResetOf(room.members, Some(Least(room.members.Keys)), room.members.Keys), mode := P2p,
                            signalEpoch := room.signalEpoch + 1, instance := None, downgradeDeadline := None)
    ensures after == DowngradedRoom(room)
  {
    assert after.members == DowngradedRoom(room).members;
  }

  lemma DowngradedEpoch(room: Room)
    requires room.members != map[]
    ensures DowngradedRoom(room).signalEpoch == room.signalEpoch + 1
  {
  }

  lemma SessionHas(t: Table, connection: ConnectionId, i: InstanceId, request: RequestId, capacity: Capacity)
    ensures i in OpenSession(t, connection, i, request, capacity).workers
  {
  }

  lemma WorkerValid(t: Table, connection: ConnectionId, i: InstanceId, request: RequestId, capacity: Capacity,
                    rooms: seq<RoomId>, commands: seq<RequestId>)
    requires Base(t) && ProperOrders(t, WorkerStep(connection, i, request, capacity, rooms, commands))
    ensures Base(RegisterWorker(t, connection, i, request, capacity, rooms, commands))
  {
    hide Base, RegisterWorker, OpenSession;
    StepBase(t, WorkerStep(connection, i, request, capacity, rooms, commands));
  }

  lemma LostValid(t: Table, connection: ConnectionId, i: InstanceId, now: Instant)
    requires Base(t)
    ensures Base(LoseWorker(t, connection, i, now))
  {
    hide Base, LoseWorker;
    StepBase(t, LostStep(connection, i, now));
  }

  lemma EventValid(t: Table, connection: ConnectionId, i: InstanceId, event: Event)
    requires Base(t)
    ensures Base(HandleEvent(t, connection, i, event).0)
  {
    hide Base, HandleEvent;
    StepBase(t, EventStep(connection, i, event));
  }

  lemma ResultValid(t: Table, connection: ConnectionId, i: InstanceId, result: CommandResult, now: Instant)
    requires Base(t)
    ensures Base(HandleResult(t, connection, i, result, now).0)
  {
    hide Base, HandleResult;
    StepBase(t, ResultStep(connection, i, result, now));
  }

  lemma BarriersInRange(t: Table)
    requires Base(t)
    ensures forall r :: r in t.rooms && t.rooms[r].upgrade.Some? ==>
              t.rooms[r].upgrade.value.next < |t.rooms[r].upgrade.value.ordered|
  {
    hide CommandsOk, FreshOk, WorkerTimers, WindowAt;
    forall r | r in t.rooms && t.rooms[r].upgrade.Some?
      ensures t.rooms[r].upgrade.value.next < |t.rooms[r].upgrade.value.ordered|
    {
      assert RoomOk(t.rooms[r], false);
    }
  }

  lemma SyncIsOk(t: Table, connection: ConnectionId, i: InstanceId, p: PendingCommand, result: CommandResult)
    requires p.SyncPending?
    ensures SyncResult(t, connection, i, p, result).1.Ok?
  {
    hide PushCommands, FailRoom;
  }

  lemma EligibleNonempty(room: Room)
    requires DowngradeEligible(room)
    ensures room.members != map[]
  {
  }

  // ---- loops of a timeout ----

  lemma TimeoutValid(t: Table, now: Instant, s: Schedule)
    requires Base(t) && TimeoutOrders(t, now, s)
    ensures Base(HandleTimeout(t, now, s).0)
  {
    hide Base, HandleTimeout, TimeoutOrders;
    StepBase(t, TimeoutStep(now, s));
  }

  lemma SameUpgrades(t: Table, t': Table)
    requires UpgradesPresent(t) && t'.rooms == t.rooms
    ensures UpgradesPresent(t')
  {
  }

  lemma BarriersPresent(t: Table)
    requires Base(t)
    ensures UpgradesPresent(t)
  {
    hide CommandsOk, FreshOk, WorkerTimers, WindowAt;
    forall r | r in t.rooms && t.rooms[r].mode == Upgrading ensures t.rooms[r].upgrade.Some? {
      assert RoomOk(t.rooms[r], false);
    }
  }

  lemma ListedOnce<T(!new)>(order: seq<T>, s: set<T>, k: nat)
    requires Lists(order, s) && k < |order|
    ensures order[k] in s && order[k] !in order[..k]
  {
    assert order[k] in order;
  }

  lemma ListedAll<T(!new)>(order: seq<T>, s: set<T>)
    requires Lists(order, s)
    ensures forall x :: x in s <==> x in order
  {
  }

  lemma NothingExpired(t: Table, hosted: map<InstanceId, seq<RoomId>>)
    ensures ExpireWorkers(t, [], hosted) == t && ExpiryOrders(t, [], hosted)
  {
  }

  lemma {:induction false} ExpirySnoc(t: Table, ws: seq<InstanceId>, hosted: map<InstanceId, seq<RoomId>>, i: InstanceId,
                                      rooms: seq<RoomId>)
    requires i !in ws && ExpiryOrders(t, ws, hosted)
    requires var mid := ExpireWorkers(t, ws, hosted); i in mid.workers && Lists(rooms, mid.workers[i].rooms)
    ensures ExpireWorkers(t, ws + [i], hosted[i := rooms]) == ExpireWorker(ExpireWorkers(t, ws, hosted), i, rooms)
    ensures ExpiryOrders(t, ws + [i], hosted[i := rooms])
    decreases |ws|
  {
    hide ExpireWorker, Lists;
    if ws == [] {
      assert [] + [i] == [i] && [i][1..] == [];
    } else {
      assert ws[0] in ws && (ws + [i])[1..] == ws[1..] + [i];
      ExpirySnoc(ExpireWorker(t, ws[0], Listing(hosted, ws[0])), ws[1..], hosted, i, rooms);
    }
  }

  lemma NothingSwept(t: Table, now: Instant, members: map<RoomId, seq<ClientId>>)
    ensures SweepRooms(t, now, [], members) == (t, [])
  {
  }

  lemma {:induction false} SweepSnoc(t: Table, now: Instant, rs: seq<RoomId>, members: map<RoomId, seq<ClientId>>,
                                     r: RoomId, order: seq<ClientId>)
    requires r !in rs
    ensures var first := SweepRooms(t, now, rs, members);
            var last := SweepRoom(first.0, now, r, order);
            SweepRooms(t, now, rs + [r], members[r := order])
            == (last.0, first.1 + if last.1.Some? then [last.1.value] else [])
    decreases |rs|
  {
    hide SweepRoom;
    if rs == [] {
      assert [] + [r] == [r] && [r][1..] == [];
      var none: seq<Promotion> := [];
      var last := SweepRoom(t, now, r, order);
      var tail := if last.1.Some? then [last.1.value] else [];
      assert none + tail == tail + none;
    } else {
      assert rs[0] in rs && (rs + [r])[1..] == rs[1..] + [r];
      var swept := SweepRoom(t, now, rs[0], Listing(members, rs[0]));
      SweepSnoc(swept.0, now, rs[1..], members, r, order);
      var first := SweepRooms(swept.0, now, rs[1..], members);
      var head := if swept.1.Some? then [swept.1.value] else [];
      var last := SweepRoom(first.0, now, r, order);
      var tail := if last.1.Some? then [last.1.value] else [];
      assert head + (first.1 + tail) == head + first.1 + tail;
    }
  }

  // ---- deadlines ----

  /** The deadlines of one room that count. */
  function RoomDeadlines(room: Room): set<Instant> {
    (set c | c in room.members && Polled(room) && room.members[c].deadline.Some? :: room.members[c].deadline.value)
    + (if room.downgradeDeadline.Some? then {room.downgradeDeadline.value} else {})
  }

  ghost predicate InRooms(t: Table, rs: set<RoomId>, d: Instant) {
    exists r :: r in rs && r in t.rooms && d in RoomDeadlines(t.rooms[r])
  }

  ghost predicate Earliest(next: Option<Instant>, seen: set<Instant>) {
    match next
    case None => seen == {}
    case Some(d) => d in seen && forall e :: e in seen ==> d <= e
  }

  lemma EarliestMore(next: Option<Instant>, seen: set<Instant>, d: Instant)
    requires Earliest(next, seen)
    ensures Earliest(if next.None? || d < next.value then Some(d) else next, seen + {d})
  {
  }

  lemma InRoomsMore(t: Table, rs: set<RoomId>, r: RoomId)
    requires r in t.rooms
    ensures forall d: Instant :: InRooms(t, rs + {r}, d) <==> InRooms(t, rs, d) || d in RoomDeadlines(t.rooms[r])
  {
    hide RoomDeadlines;
  }

  lemma RoomDeadlinesAre(room: Room, d: Instant)
    ensures d in RoomDeadlines(room) <==>
              (exists c :: c in room.members && Polled(room) && room.members[c].deadline == Some(d))
              || room.downgradeDeadline == Some(d)
  {
    if c :| c in room.members && Polled(room) && room.members[c].deadline == Some(d) {
      assert room.members[c].deadline.value in RoomDeadlines(room);
    }
  }

  lemma DeadlinesAre(t: Table, d: Instant)
    ensures HasDeadline(t, d) <==>
              InRooms(t, t.rooms.Keys, d) || exists i :: i in t.workers && t.workers[i].deadline == Some(d)
  {
    hide RoomDeadlines;
    forall r | r in t.rooms
      ensures d in RoomDeadlines(t.rooms[r]) <==>
                (exists c :: c in t.rooms[r].members && Polled(t.rooms[r]) && t.rooms[r].members[c].deadline == Some(d))
                || t.rooms[r].downgradeDeadline == Some(d)
    {
      RoomDeadlinesAre(t.rooms[r], d);
    }
    if r, c :| r in t.rooms && Polled(t.rooms[r]) && c in t.rooms[r].members && t.rooms[r].members[c].deadline == Some(d) {
      assert d in RoomDeadlines(t.rooms[r]);
    }
    if r :| r in t.rooms && t.rooms[r].downgradeDeadline == Some(d) {
      assert d in RoomDeadlines(t.rooms[r]);
    }
  }

  lemma NextIs(t: Table, next: Option<Instant>, seen: set<Instant>)
    requires Earliest(next, seen) && forall d: Instant :: d in seen <==> HasDeadline(t, d)
    ensures IsNextTimeout(t, next)
  {
    hide HasDeadline;
  }
}
