/** What is given back to a worker's charge is charged: no subtraction clamps, between the steps of a run or in the middle
    of a timeout that releases several rooms. */
module V2Charges {
  import opened Wrappers
  import opened Collections
  import opened Sfu
  import opened V2State
  import opened V2Steps
  import opened V2Rooms
  import opened V2Moves
  import opened V2RoomSteps
  import opened V2Commands
  import opened V2Slots
  import opened V2SlotSteps
  import opened V2SlotTimers
  import opened V2Ledger
  import opened V2Runs
  import opened V2Histories

  /** The worker of the room is known and charged with at least `clients`. */
  ghost predicate ChargedWith(t: Table, room: Room, clients: nat) {
    room.instance.Some? && room.instance.value in t.workers && t.workers[room.instance.value].clients >= clients
  }

  /** An abort gives back 3, a finished Leave 1 and a downgrade the members, and all of it is charged. */
  ghost predicate Covered(t: Table, r: RoomId) {
    r in t.rooms ==>
      && (t.rooms[r].mode == Upgrading ==> ChargedWith(t, t.rooms[r], 3))
      && (t.rooms[r].pendingLeave.Some? ==> ChargedWith(t, t.rooms[r], 1))
      && (DowngradeEligible(t.rooms[r]) ==> ChargedWith(t, t.rooms[r], |t.rooms[r].members|))
  }

  ghost predicate AllBooks(t: Table) {
    forall i: InstanceId :: Books(t, i)
  }

  /** Somebody other than the joiner is charged for while a Leave is in flight. */
  lemma LeaverCharged(room: Room, acks: Acks, r: RoomId)
    requires SfuOk(r, room, acks) && room.pendingLeave.Some?
    requires room.pendingJoin.Some? ==> room.pendingJoin.value.client in room.members
    ensures Load(room) >= 1
  {
    var c := room.pendingLeave.value.client;
    MemberCounts(room.members, c, room.members[c]);
    if room.pendingJoin.Some? {
      var d := room.pendingJoin.value.client;
      var rest := room.members - {c};
      assert d in rest;
      MemberCounts(rest, d, rest[d]);
    }
  }

  lemma BooksCover(t: Table, r: RoomId, acks: Acks)
    requires SlotAt(t, r, acks, true) && OkAt(t, r, true) && AllBooks(t)
    ensures Covered(t, r)
  {
    hide Books, Timers, Parity, NoRoles, QuietPeers, OneInitiator, BarrierShape, Only;
    if r in t.rooms && Active(t.rooms[r]) {
      var room := t.rooms[r];
      var i := room.instance.value;
      assert i in Hosts(t.workers, r);
      assert Books(t, i);
      ShareWithin(t, r, i);
      if room.pendingLeave.Some? { LeaverCharged(room, acks, r); }
    }
  }

  lemma BooksEverywhere(config: Config, run: Run, k: nat)
    requires k <= |run| && Proper(config, run) && Unfailed(config, run) && Patient(config, run)
    ensures AllBooks(At(config, run, k))
  {
    hide Books, After, Proper, Unfailed, Patient;
    Shorter(config, run, k);
    forall i: InstanceId ensures Books(At(config, run, k), i) {
      BooksKept(config, run[..k], i);
    }
  }

  lemma CoreCovers(t: Table, r: RoomId, acks: Acks)
    requires Core(t, acks, true) && AllBooks(t)
    ensures Covered(t, r)
  {
    assert SlotAt(t, r, acks, true) && OkAt(t, r, true);
    hide Covered, AllBooks, SlotAt, OkAt;
    BooksCover(t, r, acks);
  }

  /** No subtraction of a step clamps. */
  lemma ChargesCovered(config: Config, run: Run, k: nat, r: RoomId)
    requires k <= |run| && Proper(config, run) && Unfailed(config, run) && Patient(config, run)
    ensures Covered(At(config, run, k), r)
  {
    hide After, AcksOf, Core, AllBooks, Covered;
    TameAt(config, run, k, true);
    BooksEverywhere(config, run, k);
    CoreCovers(At(config, run, k), r, AcksOf(config, run[..k]));
  }

  // ---- in the middle of a timeout ----

  lemma ExpiryKeepsBooks(t: Table, workers: seq<InstanceId>, hosted: map<InstanceId, seq<RoomId>>, acks: Acks)
    requires Core(t, acks, true) && AllBooks(t) && ExpiryOrders(t, workers, hosted)
    ensures Core(ExpireWorkers(t, workers, hosted), acks, true) && AllBooks(ExpireWorkers(t, workers, hosted))
  {
    hide Core, Books, ExpireWorkers, ExpireWorker, ExpiryOrders, ExpireGuard;
    ExpireWorkersKeep(_ => true, t, workers, hosted, acks, true);
    forall i: InstanceId ensures Books(ExpireWorkers(t, workers, hosted), i) {
      forall t0: Table, w, rooms | Core(t0, acks, true) && Books(t0, i) && ExpireGuard(t0, w, rooms)
        ensures Books(ExpireWorker(t0, w, rooms), i)
      {
        ExpireWorkerBooks(t0, w, rooms, i, acks);
      }
      ExpireWorkersKeep(t0 => Books(t0, i), t, workers, hosted, acks, true);
    }
  }

  lemma SweepsKeepBooks(t: Table, now: Instant, rooms: seq<RoomId>, members: map<RoomId, seq<ClientId>>, acks: Acks)
    requires Core(t, acks, true) && AllBooks(t) && SweepReady(t, now, rooms, members, true)
    ensures var t' := SweepRooms(t, now, rooms, members).0; Core(t', acks, true) && AllBooks(t')
  {
    hide Core, Books, SweepRooms, SweepRoom, SweepReady, SweepGuard;
    SweepRoomsKeep(_ => true, t, now, rooms, members, acks, true);
    forall i: InstanceId ensures Books(SweepRooms(t, now, rooms, members).0, i) {
      forall t0: Table, r, order | Core(t0, acks, true) && Books(t0, i) && SweepGuard(t0, now, r, order, true)
        ensures Books(SweepRoom(t0, now, r, order).0, i)
      {
        SweepRoomBooks(t0, now, r, order, i, acks);
      }
      SweepRoomsKeep(t0 => Books(t0, i), t, now, rooms, members, acks, true);
    }
  }

  lemma PrefixReady(t: Table, step: Step, m: nat)
    requires step.TimeoutStep? && ProperOrders(t, step) && !LeavesJoiner(t, step) && m <= |step.schedule.rooms|
    ensures var s := step.schedule;
            SweepReady(ExpireWorkers(t, s.workers, s.hosted), step.now, s.rooms[..m], s.members, true)
  {
    hide ExpireWorkers, SparesJoiner, ExpiryOrders;
    var s := step.schedule;
    var mid := ExpireWorkers(t, s.workers, s.hosted);
    forall r | r in s.rooms[..m] ensures SweepGuard(mid, step.now, r, Listing(s.members, r), true) {
      assert r in s.rooms;
    }
  }

  /** Nor does one in the middle of the sweep of a timeout, when `m` rooms have been swept and perhaps released. */
  lemma SweepCovered(config: Config, run: Run, k: nat, m: nat, r: RoomId)
    requires k < |run| && Proper(config, run) && Unfailed(config, run) && Patient(config, run)
    requires run[k].TimeoutStep? && m <= |run[k].schedule.rooms|
    ensures var s := run[k].schedule;
            Covered(SweepRooms(ExpireWorkers(At(config, run, k), s.workers, s.hosted), run[k].now, s.rooms[..m], s.members).0, r)
  {
    hide After, AcksOf, Core, AllBooks, Covered, SweepRooms, ExpireWorkers, LeavesJoiner, SweepReady, ExpiryOrders,
         ProperOrders;
    var t, s, acks := At(config, run, k), run[k].schedule, AcksOf(config, run[..k]);
    TameAt(config, run, k, true);
    BooksEverywhere(config, run, k);
    ExpiryProper(t, run[k]);
    ExpiryKeepsBooks(t, s.workers, s.hosted, acks);
    PrefixReady(t, run[k], m);
    SweepsKeepBooks(ExpireWorkers(t, s.workers, s.hosted), run[k].now, s.rooms[..m], s.members, acks);
    CoreCovers(SweepRooms(ExpireWorkers(t, s.workers, s.hosted), run[k].now, s.rooms[..m], s.members).0, r, acks);
  }

  // ---- in the middle of an expiry ----

  /** The worker is charged with what its rooms amount to, or more: an expired SFU room no longer amounts to anything,
      but nothing is given back for it. */
  ghost predicate Enough(t: Table, i: InstanceId) {
    Sum(t.rooms, ShareOn(i)) <= ClientsOf(t, i)
  }

  lemma EnoughApart(t: Table, t': Table, r: RoomId, i: InstanceId)
    requires Enough(t, i) && OnlyRoom(t, t', r)
    requires ClientsOf(t', i) + ShareAt(t, r, i) >= ClientsOf(t, i) + ShareAt(t', r, i)
    ensures Enough(t', i)
  {
    SumApart(t, r, i);
    SumApart(t', r, i);
  }

  lemma EnoughFor(t: Table, r: RoomId, i: InstanceId)
    requires Enough(t, i)
    ensures ShareAt(t, r, i) <= ClientsOf(t, i)
  {
    SumApart(t, r, i);
  }

  /** A room that expires: hosted by `i`, and with three members when it is upgrading. */
  ghost predicate Expirable(t: Table, r: RoomId, i: InstanceId) {
    Abortable(t, r, i) && (r in t.rooms && t.rooms[r].mode == Upgrading ==> ShareAt(t, r, i) == 3)
  }

  lemma AbortEnough(t: Table, r: RoomId, i: InstanceId)
    requires Enough(t, i) && Expirable(t, r, i) && r in t.rooms && t.rooms[r].mode == Upgrading
    ensures Enough(AbortUpgrade(t, r, "WORKER_UNAVAILABLE").0, i)
  {
    var room := t.rooms[r];
    var t1 := PutRoom(t, r, AbortedRoom(room));
    var t2 := Unassign(t1, r, i, 3);
    var t' := AbortUpgrade(t, r, "WORKER_UNAVAILABLE").0;
    AbortRooms(t, r, "WORKER_UNAVAILABLE");
    CleanupFrame(t2, r, i, room.upgrade.value.joined, room.assignmentEpoch);
    UnassignClients(t1, r, i, 3, i);
    EnoughFor(t, r, i);
    assert t'.workers == t2.workers by { hide Enough, Cleanup, Unassign; }
    PutOnly(t, t', r);
    hide Enough, Cleanup, Unassign, AbortUpgrade;
    EnoughApart(t, t', r, i);
  }

  lemma ExpireRoomEnough(t: Table, r: RoomId, i: InstanceId)
    requires Enough(t, i) && Expirable(t, r, i)
    ensures Enough(ExpireRoom(t, r), i)
  {
    hide Enough, AbortUpgrade, ExpiredRoom, Abortable;
    if r in t.rooms {
      if t.rooms[r].mode == Upgrading {
        AbortEnough(t, r, i);
      } else {
        AfterExpiryShare(t.rooms[r], i);
        PutOnly(t, ExpireRoom(t, r), r);
        EnoughApart(t, ExpireRoom(t, r), r, i);
      }
    }
  }

  lemma {:induction false} ExpireRoomsEnough(t: Table, rooms: seq<RoomId>, i: InstanceId)
    requires CommandsOk(t) && Enough(t, i) && NoDuplicates(rooms)
    requires forall r :: r in rooms ==> Expirable(t, r, i)
    ensures Enough(ExpireRooms(t, rooms), i)
    decreases |rooms|
  {
    hide CommandsOk, EmitsFresh, ExpireRoom, AfterExpiry, AbortedRoom, Enough;
    if rooms != [] {
      var r, rest := rooms[0], rooms[1..];
      var t1 := ExpireRoom(t, r);
      assert r in rooms && Expirable(t, r, i);
      ExpireRoomEnough(t, r, i);
      ExpireRoomLog(t, r);
      assert r !in rest;
      forall k | k in rest ensures Expirable(t1, k, i) {
        assert k in rooms && Expirable(t, k, i);
        ExpireRoomView(t, r, i, k);
        assert RoomAt(t1, k) == RoomAt(t, k);
      }
      ExpireRoomsEnough(t1, rest, i);
    }
  }

  lemma AllExpirable(t: Table, i: InstanceId, rooms: seq<RoomId>, acks: Acks)
    requires Core(t, acks, true) && ExpireGuard(t, i, rooms)
    ensures forall r :: r in rooms ==> Expirable(t, r, i)
  {
    hide CommandsOk, SlotOk;
    AllAbortable(t, i, rooms, acks, true);
    forall r | r in rooms ensures Expirable(t, r, i) {
      assert Abortable(t, r, i) && OkAt(t, r, true);
      if r in t.rooms && t.rooms[r].mode == Upgrading { BarrierShare(t.rooms[r], i); }
    }
  }

  lemma BarrierShare(room: Room, i: InstanceId)
    requires RoomOk(room, true) && room.mode == Upgrading && room.instance == Some(i)
    ensures Share(room, i) == 3
  {
  }

  lemma ExpiryLeavesEnough(t: Table, i: InstanceId, rooms: seq<RoomId>, k: nat, acks: Acks)
    requires Core(t, acks, true) && Books(t, i) && ExpireGuard(t, i, rooms) && k < |rooms|
    ensures var t' := ExpireRooms(t, rooms[..k]);
            rooms[k] in t'.rooms && t'.rooms[rooms[k]].mode == Upgrading ==> ClientsOf(t', i) >= 3
  {
    AllExpirable(t, i, rooms, acks);
    var done := rooms[..k];
    assert forall r :: r in done ==> r in rooms;
    assert rooms[k] !in done;
    assert CommandsOk(t) && Enough(t, i);
    hide Core, Enough, CommandsOk;
    ExpireRoomsEnough(t, done, i);
    ExpireRoomsView(t, done, i, rooms[k]);
    var t' := ExpireRooms(t, done);
    assert RoomAt(t', rooms[k]) == RoomAt(t, rooms[k]);
    assert Expirable(t, rooms[k], i);
    EnoughFor(t', rooms[k], i);
    hide ExpireRooms;
  }

  /** After the first `m` expiries the next worker meets its rooms in a proper order. */
  lemma {:induction false} ExpiryPrefix(t: Table, workers: seq<InstanceId>, hosted: map<InstanceId, seq<RoomId>>, m: nat)
    requires ExpiryOrders(t, workers, hosted) && m < |workers|
    ensures ExpiryOrders(t, workers[..m], hosted)
    ensures ExpireGuard(ExpireWorkers(t, workers[..m], hosted), workers[m], Listing(hosted, workers[m]))
    decreases m
  {
    hide ExpireWorker, Lists;
    if m > 0 {
      var t1 := ExpireWorker(t, workers[0], Listing(hosted, workers[0]));
      ExpiryPrefix(t1, workers[1..], hosted, m - 1);
      assert workers[..m][1..] == workers[1..][..m - 1];
    }
  }

  /** Nor does one in the middle of an expiry: when several rooms of one worker are aborted, after `m` other workers have
      expired, what the first `n` have given back leaves the 3 that the next gives back. */
  lemma ExpiryCovered(config: Config, run: Run, k: nat, m: nat, n: nat)
    requires k < |run| && Proper(config, run) && Unfailed(config, run) && Patient(config, run) && run[k].TimeoutStep?
    requires m < |run[k].schedule.workers|
    requires n < |Listing(run[k].schedule.hosted, run[k].schedule.workers[m])|
    ensures var s := run[k].schedule;
            var rooms := Listing(s.hosted, s.workers[m]);
            var t' := ExpireRooms(ExpireWorkers(At(config, run, k), s.workers[..m], s.hosted), rooms[..n]);
            rooms[n] in t'.rooms && t'.rooms[rooms[n]].mode == Upgrading ==> ClientsOf(t', s.workers[m]) >= 3
  {
    hide After, AcksOf, Core, AllBooks, ExpireRooms, ExpireWorkers, ExpiryOrders, ExpireGuard, ProperOrders, ClientsOf;
    var t, s, acks := At(config, run, k), run[k].schedule, AcksOf(config, run[..k]);
    TameAt(config, run, k, true);
    BooksEverywhere(config, run, k);
    ExpiryProper(t, run[k]);
    ExpiryPrefix(t, s.workers, s.hosted, m);
    ExpiryKeepsBooks(t, s.workers[..m], s.hosted, acks);
    var t1 := ExpireWorkers(t, s.workers[..m], s.hosted);
    assert Books(t1, s.workers[m]) by { BooksOf(t1, s.workers[m]); }
    ExpiryLeavesEnough(t1, s.workers[m], Listing(s.hosted, s.workers[m]), n, acks);
  }

  lemma BooksOf(t: Table, i: InstanceId)
    requires AllBooks(t)
    ensures Books(t, i)
  {
  }
}
